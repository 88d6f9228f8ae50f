/**
 The leased email queue. Rows are claimed under a lease, sent, and marked sent,
 pending again or terminal; a terminal delivery is reported once through the
 outbox. The marks carry no fence, so the claims about single outcomes hold for
 runs in which each delivery ends before its lease.

 A batch claim is a run of single-row claims at one instant.
 */
module EmailDelivery {
  import opened Prelude
  import opened Paths

  const RETRY_DELAYS_MS: seq<int> := [30000, 120000, 600000, 1800000, 7200000]

  /** `emailRetryDelayMs` */
  function EmailRetryDelayMs(attempt: int): (ms: int)
    ensures 30000 <= ms <= 7200000
  {
    RETRY_DELAYS_MS[Min(Max(attempt - 1, 0), |RETRY_DELAYS_MS| - 1)]
  }

  /** Delays grow with the attempts, through the whole table, and stay at its last entry. */
  lemma DelaysGrow(attempt: int, later: int)
    requires attempt <= later
    ensures EmailRetryDelayMs(attempt) <= EmailRetryDelayMs(later)
    ensures EmailRetryDelayMs(attempt)
         == if attempt <= 1 then 30 * 1000
            else if attempt == 2 then 2 * 60 * 1000
            else if attempt == 3 then 10 * 60 * 1000
            else if attempt == 4 then 30 * 60 * 1000
            else 2 * 60 * 60 * 1000
  {
  }

  datatype Status = Pending | Leased | Sent | Terminal

  datatype Delivery = Delivery(
    status: Status,
    attempts: nat,
    availableAt: int,
    leaseUntil: Option<int>,
    sentAt: Option<int>,
    terminalAt: Option<int>)

  datatype Phase = Claimed | Delivered | Failed | Over

  /** One call of `deliverOne`; `seen` is the attempt count read by the claim. */
  datatype Job = Job(row: nat, seen: nat, lease: int, phase: Phase)

  datatype Config = Config(smtp: bool, maxAttempts: int, leaseMs: int, retryDelayMs: int -> int)

  /** The parameters of the real worker; the queue is proved for any retry schedule. */
  function WorkerConfig(smtp: bool, maxAttempts: int, leaseMs: int): Config {
    Config(smtp, maxAttempts, leaseMs, (attempt: int) => EmailRetryDelayMs(attempt))
  }

  /**
   `sends`, `dlq` and `crashes` are histories of row ids: messages the SMTP
   server took, `email.delivery_failed.v1` rows written, and deliveries that
   died before their final update.
   */
  datatype State = State(
    config: Config,
    now: int,
    rows: seq<Delivery>,
    jobs: seq<Job>,
    sends: seq<nat>,
    dlq: seq<nat>,
    crashes: seq<nat>)

  datatype Action =
    | Enqueue
    | Tick(ms: nat)
    | Claim(id: nat)
    | SmtpAccepts(j: nat)
    | SmtpFails(j: nat, taken: bool)
    | MarkSent(j: nat)
    | MarkSentFails(j: nat)
    | MarkFailure(j: nat)
    | Crash(j: nat)

  /** The WHERE clause of the claim. */
  predicate Claimable(d: Delivery, now: int) {
    && d.terminalAt.None?
    && d.sentAt.None?
    && d.availableAt <= now
    && (d.status.Pending? || (d.status.Leased? && d.leaseUntil.Some? && d.leaseUntil.value <= now))
  }

  predicate JobIn(s: State, j: nat, phase: Phase) {
    j < |s.jobs| && s.jobs[j].phase == phase && s.jobs[j].row < |s.rows|
  }

  predicate Enabled(s: State, a: Action) {
    match a
    case Enqueue => true
    case Tick(_) => true
    case Claim(id) => id < |s.rows| && Claimable(s.rows[id], s.now)
    case SmtpAccepts(j) => JobIn(s, j, Claimed)
    case SmtpFails(j, taken) => JobIn(s, j, Claimed) && s.config.smtp
    case MarkSent(j) => JobIn(s, j, Delivered)
    case MarkSentFails(j) => JobIn(s, j, Delivered)
    case MarkFailure(j) => JobIn(s, j, Failed)
    case Crash(j) => j < |s.jobs| && s.jobs[j].phase != Over
  }

  function SetPhase(s: State, j: nat, phase: Phase): State
    requires j < |s.jobs|
  {
    s.(jobs := s.jobs[j := s.jobs[j].(phase := phase)])
  }

  function SetRow(s: State, id: nat, d: Delivery): State
    requires id < |s.rows|
  {
    s.(rows := s.rows[id := d])
  }

  function LogSend(s: State, id: nat, taken: bool): State {
    if taken then s.(sends := s.sends + [id]) else s
  }

  /** `markDeliveryFailure`, one transaction. */
  function AfterFailure(s: State, id: nat, seen: nat): State
    requires id < |s.rows|
  {
    var d := s.rows[id];
    var attempt := seen + 1;
    if attempt >= s.config.maxAttempts then
      SetRow(s, id, d.(status := Terminal, terminalAt := Some(s.now), leaseUntil := None)).(dlq := s.dlq + [id])
    else
      SetRow(s, id, d.(status := Pending, leaseUntil := None, availableAt := s.now + s.config.retryDelayMs(attempt)))
  }

  function Apply(s: State, a: Action): State
    requires Enabled(s, a)
  {
    match a
    case Enqueue => s.(rows := s.rows + [Delivery(Pending, 0, s.now, None, None, None)])
    case Tick(ms) => s.(now := s.now + ms)
    case Claim(id) =>
      var d := s.rows[id];
      var lease := s.now + s.config.leaseMs;
      SetRow(s, id, d.(status := Leased, attempts := d.attempts + 1, leaseUntil := Some(lease)))
        .(jobs := s.jobs + [Job(id, d.attempts, lease, Claimed)])
    case SmtpAccepts(j) => LogSend(SetPhase(s, j, Delivered), s.jobs[j].row, s.config.smtp)
    case SmtpFails(j, taken) => LogSend(SetPhase(s, j, Failed), s.jobs[j].row, taken)
    case MarkSent(j) =>
      var id := s.jobs[j].row;
      SetPhase(SetRow(s, id, s.rows[id].(status := Sent, sentAt := Some(s.now), leaseUntil := None)), j, Over)
    case MarkSentFails(j) => SetPhase(s, j, Failed)
    case MarkFailure(j) => SetPhase(AfterFailure(s, s.jobs[j].row, s.jobs[j].seen), j, Over)
    case Crash(j) => SetPhase(s, j, Over).(crashes := s.crashes + [s.jobs[j].row])
  }

  ghost predicate Next(s: State, t: State) {
    exists a :: Enabled(s, a) && t == Apply(s, a)
  }

  ghost predicate Init(s: State) {
    s.rows == [] && s.jobs == [] && s.sends == [] && s.dlq == [] && s.crashes == []
  }

  predicate Closed(d: Delivery) {
    d.sentAt.Some? || d.terminalAt.Some?
  }

  /** A row that was sent or given up is never claimed again, and stays so whatever late deliveries do. */
  lemma ClosedStays(s: State, a: Action, id: nat)
    requires Enabled(s, a) && id < |s.rows| && Closed(s.rows[id])
    ensures a != Claim(id)
    ensures Closed(Apply(s, a).rows[id]) && Apply(s, a).rows[id].attempts == s.rows[id].attempts
  {
  }

  // -------------------------------------------- sends never exceed attempts

  /** Deliveries of the row whose SMTP call is still to come. */
  function ToSend(jobs: seq<Job>, id: nat): set<nat> {
    set j: nat | j < |jobs| && jobs[j].row == id && jobs[j].phase == Claimed
  }

  ghost predicate SendsBounded(s: State) {
    && (forall j :: 0 <= j < |s.jobs| ==> s.jobs[j].row < |s.rows|)
    && (forall id :: id in s.sends ==> id < |s.rows|)
    && (forall id: nat :: id < |s.rows| ==> Count(s.sends, id) + |ToSend(s.jobs, id)| <= s.rows[id].attempts)
  }

  lemma PhaseLeaves(jobs: seq<Job>, j: nat, phase: Phase, id: nat)
    requires j < |jobs| && phase != Claimed
    ensures |ToSend(jobs[j := jobs[j].(phase := phase)], id)|
         == |ToSend(jobs, id)| - if jobs[j].phase == Claimed && jobs[j].row == id then 1 else 0
  {
    var after := jobs[j := jobs[j].(phase := phase)];
    if jobs[j].phase == Claimed && jobs[j].row == id {
      assert j in ToSend(jobs, id);
      assert ToSend(after, id) == ToSend(jobs, id) - {j};
    } else {
      assert ToSend(after, id) == ToSend(jobs, id);
    }
  }

  lemma ClaimAdds(jobs: seq<Job>, job: Job, id: nat)
    requires job.phase == Claimed
    ensures |ToSend(jobs + [job], id)| == |ToSend(jobs, id)| + if job.row == id then 1 else 0
  {
    if job.row == id {
      assert ToSend(jobs + [job], id) == ToSend(jobs, id) + {|jobs|};
    } else {
      assert ToSend(jobs + [job], id) == ToSend(jobs, id);
    }
  }

  lemma EnqueueBounded(s: State)
    requires SendsBounded(s)
    ensures SendsBounded(Apply(s, Enqueue))
  {
    var n: nat := |s.rows|;
    assert ToSend(s.jobs, n) == {};
    CountPositive(s.sends, n);
  }

  lemma ClaimBounded(s: State, id: nat)
    requires SendsBounded(s) && Enabled(s, Claim(id))
    ensures SendsBounded(Apply(s, Claim(id)))
  {
    var t := Apply(s, Claim(id));
    var job := Job(id, s.rows[id].attempts, s.now + s.config.leaseMs, Claimed);
    assert t.jobs == s.jobs + [job];
    forall i: nat | i < |t.rows|
      ensures Count(t.sends, i) + |ToSend(t.jobs, i)| <= t.rows[i].attempts
    {
      ClaimAdds(s.jobs, job, i);
      assert Count(s.sends, i) + |ToSend(s.jobs, i)| <= s.rows[i].attempts;
    }
  }

  predicate MovesJob(a: Action) {
    !a.Enqueue? && !a.Tick? && !a.Claim?
  }

  /** A delivery's step takes it out of those to be sent, if it sends. */
  lemma JobSends(s: State, a: Action) returns (t: State, phase: Phase)
    requires Enabled(s, a) && MovesJob(a) && s.jobs[a.j].row < |s.rows|
    ensures t == Apply(s, a) && t.jobs == s.jobs[a.j := s.jobs[a.j].(phase := phase)] && phase != Claimed
    ensures t.sends == s.sends || (s.jobs[a.j].phase == Claimed && t.sends == s.sends + [s.jobs[a.j].row])
    ensures |t.rows| == |s.rows| && forall i :: 0 <= i < |s.rows| ==> t.rows[i].attempts == s.rows[i].attempts
  {
    t := Apply(s, a);
    phase := t.jobs[a.j].phase;
  }

  /** A send is counted where the delivery leaves those to be sent. */
  lemma SendIsCounted(jobs: seq<Job>, j: nat, phase: Phase, sends: seq<nat>, sent: bool, i: nat)
    requires j < |jobs| && phase != Claimed && (sent ==> jobs[j].phase == Claimed)
    ensures Count(if sent then sends + [jobs[j].row] else sends, i) + |ToSend(jobs[j := jobs[j].(phase := phase)], i)|
         <= Count(sends, i) + |ToSend(jobs, i)|
  {
    PhaseLeaves(jobs, j, phase, i);
    CountAppend(sends, jobs[j].row, i);
  }

  lemma JobBounded(s: State, a: Action)
    requires SendsBounded(s) && Enabled(s, a) && MovesJob(a)
    ensures SendsBounded(Apply(s, a))
  {
    var t, phase := JobSends(s, a);
    var sent := t.sends != s.sends;
    forall i: nat | i < |t.rows|
      ensures Count(t.sends, i) + |ToSend(t.jobs, i)| <= t.rows[i].attempts
    {
      SendIsCounted(s.jobs, a.j, phase, s.sends, sent, i);
      assert Count(s.sends, i) + |ToSend(s.jobs, i)| <= s.rows[i].attempts;
    }
  }

  lemma StepBounded(s: State, a: Action)
    requires SendsBounded(s) && Enabled(s, a)
    ensures SendsBounded(Apply(s, a))
  {
    match a
    case Enqueue => EnqueueBounded(s);
    case Tick(_) =>
    case Claim(id) => ClaimBounded(s, id);
    case _ => JobBounded(s, a);
  }

  /** In every run, with crashes and late deliveries, a row is sent at most once per attempt. */
  lemma SendsNeverExceedAttempts(s0: State, s: State, id: nat)
    requires Init(s0) && Leads(Next, s0, s) && id < |s.rows|
    ensures Count(s.sends, id) <= s.rows[id].attempts
  {
    forall t, u | SendsBounded(t) && Next(t, u)
      ensures SendsBounded(u)
    {
      var a :| Enabled(t, a) && u == Apply(t, a);
      StepBounded(t, a);
    }
    LeadsKeeps(Next, SendsBounded, s0, s);
    assert SendsBounded(s);
  }

  // ------------------------------------------------ what is sent is sent by SMTP

  /** A row marked sent, or about to be, has been handed to the SMTP server; in any other mode nothing is. */
  ghost predicate SendsFine(s: State) {
    && (s.config.smtp ==>
          && (forall id: nat :: id < |s.rows| && s.rows[id].sentAt.Some? ==> id in s.sends)
          && (forall j :: 0 <= j < |s.jobs| && s.jobs[j].phase == Delivered ==> s.jobs[j].row in s.sends))
    && (!s.config.smtp ==> s.sends == [])
  }

  lemma StepSends(s: State, a: Action)
    requires SendsFine(s) && Enabled(s, a)
    ensures SendsFine(Apply(s, a))
  {
  }

  /** In every run a row marked sent in SMTP mode has been handed to the SMTP server, and in no other mode is any row. */
  lemma SentBySmtp(s0: State, s: State, id: nat)
    requires Init(s0) && Leads(Next, s0, s) && id < |s.rows|
    ensures s.config == s0.config
    ensures s.config.smtp && s.rows[id].sentAt.Some? ==> Count(s.sends, id) >= 1
    ensures !s.config.smtp ==> s.sends == []
  {
    var inv := (t: State) => SendsFine(t) && t.config == s0.config;
    forall t, u | inv(t) && Next(t, u)
      ensures inv(u)
    {
      var a :| Enabled(t, a) && u == Apply(t, a);
      StepSends(t, a);
    }
    LeadsKeeps(Next, inv, s0, s);
    CountPositive(s.sends, id);
  }

  // ------------------------------------------ outcomes of exclusive deliveries

  ghost predicate HasJob(jobs: seq<Job>, id: nat) {
    exists j :: 0 <= j < |jobs| && jobs[j].row == id && jobs[j].phase != Over
  }

  /** A row is claimed again while a delivery of it is in progress. */
  ghost predicate ClaimsBusy(s: State, a: Action) {
    a.Claim? && HasJob(s.jobs, a.id)
  }

  ghost predicate GuardedNext(s: State, t: State) {
    exists a :: Enabled(s, a) && !ClaimsBusy(s, a) && t == Apply(s, a)
  }

  /** No two deliveries of one row are in progress, and each owns its row's lease. */
  ghost predicate JobsFine(s: State) {
    && (forall j :: 0 <= j < |s.jobs| && s.jobs[j].phase != Over ==>
          var job := s.jobs[j];
          && job.row < |s.rows|
          && s.rows[job.row].status.Leased?
          && s.rows[job.row].leaseUntil == Some(job.lease)
          && s.rows[job.row].availableAt <= s.now
          && s.rows[job.row].attempts == job.seen + 1)
    && (forall j, k :: 0 <= j < k < |s.jobs| && s.jobs[j].phase != Over && s.jobs[k].phase != Over ==> s.jobs[j].row != s.jobs[k].row)
  }

  /** One row and what is known about it; `busy` says that a delivery is in progress. */
  ghost predicate RowFine(d: Delivery, maxAttempts: int, crashes: nat, dlq: nat, busy: bool) {
    var allowed := Max(1, maxAttempts) + crashes;
    && dlq == (if d.status.Terminal? then 1 else 0)
    && d.sentAt.Some? == d.status.Sent?
    && d.terminalAt.Some? == d.status.Terminal?
    && (d.status.Pending? ==> !busy && (d.attempts == 0 || d.attempts < maxAttempts))
    && (d.status.Leased? ==> d.leaseUntil.Some? && 1 <= d.attempts && d.attempts + (if busy then 0 else 1) <= allowed)
    && (d.status.Sent? ==> !busy && d.attempts <= allowed)
    && (d.status.Terminal? ==> !busy && maxAttempts <= d.attempts <= allowed)
  }

  ghost predicate RowsFine(s: State) {
    && (forall id :: id in s.dlq ==> id < |s.rows|)
    && (forall id :: id in s.crashes ==> id < |s.rows|)
    && (forall id: nat :: id < |s.rows| ==>
          RowFine(s.rows[id], s.config.maxAttempts, Count(s.crashes, id), Count(s.dlq, id), HasJob(s.jobs, id)))
  }

  ghost predicate Fine(s: State) {
    JobsFine(s) && RowsFine(s)
  }

  lemma EnqueueFine(s: State)
    requires Fine(s)
    ensures Fine(Apply(s, Enqueue))
  {
    var n: nat := |s.rows|;
    CountPositive(s.dlq, n);
    CountPositive(s.crashes, n);
    assert !HasJob(s.jobs, n);
  }

  lemma ClaimJobsFine(s: State, id: nat)
    requires JobsFine(s) && Enabled(s, Claim(id)) && !HasJob(s.jobs, id)
    ensures JobsFine(Apply(s, Claim(id)))
  {
  }

  lemma ClaimHasJob(s: State, id: nat, i: nat)
    requires Enabled(s, Claim(id))
    ensures HasJob(Apply(s, Claim(id)).jobs, i) <==> HasJob(s.jobs, i) || i == id
  {
    var t := Apply(s, Claim(id));
    if HasJob(s.jobs, i) {
      var j :| 0 <= j < |s.jobs| && s.jobs[j].row == i && s.jobs[j].phase != Over;
      assert t.jobs[j] == s.jobs[j];
    }
    assert t.jobs[|s.jobs|].row == id && t.jobs[|s.jobs|].phase == Claimed;
  }

  lemma ClaimFine(s: State, id: nat)
    requires Fine(s) && Enabled(s, Claim(id)) && !HasJob(s.jobs, id)
    ensures Fine(Apply(s, Claim(id)))
  {
    var t := Apply(s, Claim(id));
    ClaimJobsFine(s, id);
    forall i: nat | i < |t.rows|
      ensures RowFine(t.rows[i], t.config.maxAttempts, Count(t.crashes, i), Count(t.dlq, i), HasJob(t.jobs, i))
    {
      ClaimHasJob(s, id, i);
      assert RowFine(s.rows[i], s.config.maxAttempts, Count(s.crashes, i), Count(s.dlq, i), HasJob(s.jobs, i));
    }
  }

  lemma OverEndsJob(s: State, j: nat, i: nat)
    requires JobsFine(s) && j < |s.jobs| && s.jobs[j].phase != Over
    ensures HasJob(s.jobs[j := s.jobs[j].(phase := Over)], i) <==> HasJob(s.jobs, i) && i != s.jobs[j].row
  {
    var after := s.jobs[j := s.jobs[j].(phase := Over)];
    if HasJob(s.jobs, i) && i != s.jobs[j].row {
      var k :| 0 <= k < |s.jobs| && s.jobs[k].row == i && s.jobs[k].phase != Over;
      assert after[k] == s.jobs[k];
    }
    if HasJob(after, i) {
      var k :| 0 <= k < |after| && after[k].row == i && after[k].phase != Over;
      assert s.jobs[k] == after[k];
    }
  }

  /** The delivery ends: its row gets `d`, and the histories grow by the given entries. */
  function Ended(s: State, j: nat, d: Delivery, failed: bool, crashed: bool): State
    requires j < |s.jobs| && s.jobs[j].row < |s.rows|
  {
    var id := s.jobs[j].row;
    SetPhase(SetRow(s, id, d), j, Over)
      .(dlq := if failed then s.dlq + [id] else s.dlq,
        crashes := if crashed then s.crashes + [id] else s.crashes)
  }

  lemma EndRowFine(s: State, j: nat, d: Delivery, failed: bool, crashed: bool, i: nat)
    requires Fine(s) && j < |s.jobs| && s.jobs[j].phase != Over && s.jobs[j].row < |s.rows| && i < |s.rows|
    requires var id := s.jobs[j].row;
             RowFine(d, s.config.maxAttempts, Count(s.crashes, id) + (if crashed then 1 else 0),
                     Count(s.dlq, id) + (if failed then 1 else 0), false)
    ensures var t := Ended(s, j, d, failed, crashed);
            RowFine(t.rows[i], t.config.maxAttempts, Count(t.crashes, i), Count(t.dlq, i), HasJob(t.jobs, i))
  {
    var id := s.jobs[j].row;
    OverEndsJob(s, j, i);
    CountAppend(s.dlq, id, i);
    CountAppend(s.crashes, id, i);
    assert RowFine(s.rows[i], s.config.maxAttempts, Count(s.crashes, i), Count(s.dlq, i), HasJob(s.jobs, i));
  }

  lemma EndJobsFine(s: State, j: nat, d: Delivery, failed: bool, crashed: bool)
    requires JobsFine(s) && j < |s.jobs| && s.jobs[j].phase != Over && s.jobs[j].row < |s.rows|
    ensures JobsFine(Ended(s, j, d, failed, crashed))
  {
  }

  lemma EndFine(s: State, j: nat, d: Delivery, failed: bool, crashed: bool)
    requires Fine(s) && j < |s.jobs| && s.jobs[j].phase != Over && s.jobs[j].row < |s.rows|
    requires var id := s.jobs[j].row;
             RowFine(d, s.config.maxAttempts, Count(s.crashes, id) + (if crashed then 1 else 0),
                     Count(s.dlq, id) + (if failed then 1 else 0), false)
    ensures Fine(Ended(s, j, d, failed, crashed))
  {
    var t := Ended(s, j, d, failed, crashed);
    EndJobsFine(s, j, d, failed, crashed);
    assert |t.rows| == |s.rows|;
    forall i: nat | i < |s.rows|
      ensures RowFine(t.rows[i], t.config.maxAttempts, Count(t.crashes, i), Count(t.dlq, i), HasJob(t.jobs, i))
    {
      EndRowFine(s, j, d, failed, crashed, i);
    }
    assert JobsFine(t) && RowsFine(t);
  }

  lemma JobRowFine(s: State, j: nat)
    requires Fine(s) && j < |s.jobs| && s.jobs[j].phase != Over
    ensures var job := s.jobs[j];
            && job.row < |s.rows|
            && s.rows[job.row].status.Leased? && s.rows[job.row].attempts == job.seen + 1
            && RowFine(s.rows[job.row], s.config.maxAttempts, Count(s.crashes, job.row), Count(s.dlq, job.row), true)
  {
    assert HasJob(s.jobs, s.jobs[j].row);
  }

  lemma MarkSentFine(s: State, j: nat)
    requires Fine(s) && Enabled(s, MarkSent(j))
    ensures Fine(Apply(s, MarkSent(j)))
  {
    JobRowFine(s, j);
    var id := s.jobs[j].row;
    EndFine(s, j, s.rows[id].(status := Sent, sentAt := Some(s.now), leaseUntil := None), false, false);
  }

  lemma MarkFailureFine(s: State, j: nat)
    requires Fine(s) && Enabled(s, MarkFailure(j))
    ensures Fine(Apply(s, MarkFailure(j)))
  {
    JobRowFine(s, j);
    var id, attempt := s.jobs[j].row, s.jobs[j].seen + 1;
    if attempt >= s.config.maxAttempts {
      EndFine(s, j, s.rows[id].(status := Terminal, terminalAt := Some(s.now), leaseUntil := None), true, false);
    } else {
      EndFine(s, j, s.rows[id].(status := Pending, leaseUntil := None, availableAt := s.now + s.config.retryDelayMs(attempt)),
              false, false);
    }
  }

  lemma CrashFine(s: State, j: nat)
    requires Fine(s) && Enabled(s, Crash(j))
    ensures Fine(Apply(s, Crash(j)))
  {
    JobRowFine(s, j);
    EndFine(s, j, s.rows[s.jobs[j].row], false, true);
    assert s.rows[s.jobs[j].row := s.rows[s.jobs[j].row]] == s.rows;
  }

  lemma PhaseFine(s: State, j: nat, phase: Phase)
    requires Fine(s) && j < |s.jobs| && s.jobs[j].phase != Over && phase != Over
    ensures Fine(SetPhase(s, j, phase))
  {
    var t := SetPhase(s, j, phase);
    forall i: nat
      ensures HasJob(t.jobs, i) <==> HasJob(s.jobs, i)
    {
      if HasJob(s.jobs, i) {
        var k :| 0 <= k < |s.jobs| && s.jobs[k].row == i && s.jobs[k].phase != Over;
        assert t.jobs[k].row == i && t.jobs[k].phase != Over;
      }
      if HasJob(t.jobs, i) {
        var k :| 0 <= k < |t.jobs| && t.jobs[k].row == i && t.jobs[k].phase != Over;
        assert s.jobs[k].row == i && s.jobs[k].phase != Over;
      }
    }
  }

  /** A claim of a busy row puts two deliveries of it in progress. */
  lemma BusyClaimOverlaps(s: State, id: nat)
    requires Enabled(s, Claim(id)) && HasJob(s.jobs, id)
    ensures !JobsFine(Apply(s, Claim(id)))
  {
    var j :| 0 <= j < |s.jobs| && s.jobs[j].row == id && s.jobs[j].phase != Over;
    var t := Apply(s, Claim(id));
    assert t.jobs[j] == s.jobs[j] && t.jobs[|s.jobs|].row == id && t.jobs[|s.jobs|].phase == Claimed;
  }

  /** The exact condition: a step keeps what is known of rows and deliveries if and only if it does not claim a busy row. */
  lemma StepFine(s: State, a: Action)
    requires Fine(s) && Enabled(s, a)
    ensures Fine(Apply(s, a)) <==> !ClaimsBusy(s, a)
  {
    match a {
      case Enqueue => EnqueueFine(s);
      case Tick(_) =>
      case Claim(id) =>
        if HasJob(s.jobs, id) {
          BusyClaimOverlaps(s, id);
        } else {
          ClaimFine(s, id);
        }
      case _ => JobStepFine(s, a);
    }
  }

  lemma JobStepFine(s: State, a: Action)
    requires Fine(s) && Enabled(s, a) && MovesJob(a)
    ensures Fine(Apply(s, a))
  {
    match a {
      case MarkSent(j) => MarkSentFine(s, j);
      case MarkFailure(j) => MarkFailureFine(s, j);
      case Crash(j) => CrashFine(s, j);
      case SmtpAccepts(j) => PhaseFine(s, j, Delivered);
      case SmtpFails(j, _) => PhaseFine(s, j, Failed);
      case MarkSentFails(j) => PhaseFine(s, j, Failed);
    }
    var t := Apply(s, a);
    assert Fine(t);
  }

  /** A busy row can be claimed exactly when the lease of its delivery is over. */
  lemma BusyClaimIsLate(s: State, id: nat)
    requires Fine(s) && HasJob(s.jobs, id)
    ensures id < |s.rows| && s.rows[id].leaseUntil.Some?
    ensures Enabled(s, Claim(id)) <==> s.rows[id].leaseUntil.value <= s.now
    ensures exists j :: 0 <= j < |s.jobs| && s.jobs[j].row == id && s.jobs[j].phase != Over
                        && s.rows[id].leaseUntil == Some(s.jobs[j].lease)
  {
    var j :| 0 <= j < |s.jobs| && s.jobs[j].row == id && s.jobs[j].phase != Over;
    assert RowFine(s.rows[id], s.config.maxAttempts, Count(s.crashes, id), Count(s.dlq, id), HasJob(s.jobs, id));
  }

  lemma GuardedRun(s0: State, s: State)
    requires Init(s0) && Leads(GuardedNext, s0, s)
    ensures Fine(s) && s.config == s0.config
  {
    var inv := (t: State) => Fine(t) && t.config == s0.config;
    forall t, u | inv(t) && GuardedNext(t, u)
      ensures inv(u)
    {
      var a :| Enabled(t, a) && !ClaimsBusy(t, a) && u == Apply(t, a);
      StepFine(t, a);
    }
    LeadsKeeps(GuardedNext, inv, s0, s);
  }

  /** Every delivery in progress is still within its lease. */
  ghost predicate Timely(s: State) {
    forall j :: 0 <= j < |s.jobs| && s.jobs[j].phase != Over ==> s.now < s.jobs[j].lease
  }

  ghost predicate TimelyNext(s: State, t: State) {
    Timely(s) && Next(s, t)
  }

  /** Deliveries that all end before their leases never have their rows claimed again, so their runs are covered. */
  lemma TimelyRunsAreGuarded(s0: State, s: State)
    requires Init(s0) && Leads(TimelyNext, s0, s)
    ensures Leads(GuardedNext, s0, s)
  {
    var inv := (t: State) => Fine(t) && Leads(GuardedNext, s0, t);
    LeadsNowhere(GuardedNext, s0);
    forall t, u | inv(t) && TimelyNext(t, u)
      ensures inv(u)
    {
      var a :| Enabled(t, a) && u == Apply(t, a);
      if ClaimsBusy(t, a) {
        BusyClaimIsLate(t, a.id);
        assert false;
      }
      StepFine(t, a);
      LeadsStep(GuardedNext, s0, t, u);
    }
    LeadsKeeps(TimelyNext, inv, s0, s);
  }

  /**
   The lease separates the deliveries: if each ends within its lease, no two
   deliveries of one row are ever in progress, and its row is leased until then.
   */
  lemma LeasesSeparateDeliveries(s0: State, s: State, j: nat, k: nat)
    requires Init(s0) && Leads(TimelyNext, s0, s)
    requires j < |s.jobs| && k < |s.jobs| && s.jobs[j].phase != Over && s.jobs[k].phase != Over
    ensures s.jobs[j].row == s.jobs[k].row ==> j == k
    ensures s.jobs[j].row < |s.rows|
    ensures Enabled(s, Claim(s.jobs[j].row)) <==> s.jobs[j].lease <= s.now
  {
    TimelyRunsAreGuarded(s0, s);
    GuardedRun(s0, s);
    assert j < k || k < j || j == k;
    assert HasJob(s.jobs, s.jobs[j].row);
    BusyClaimIsLate(s, s.jobs[j].row);
  }

  /**
   The email queue, in runs in which no row is claimed again while a delivery of
   it is in progress, late deliveries and crashes included: a row is claimed at
   most maxAttempts times plus once for each delivery of it that crashed, it is
   never both sent and terminal, a pending row has attempts left, and it has one
   failure report exactly when it is terminal.
   */
  lemma EmailQueue(s0: State, s: State, id: nat)
    requires Init(s0) && Leads(GuardedNext, s0, s) && id < |s.rows|
    ensures var d := s.rows[id]; var crashes := Count(s.crashes, id);
            && d.attempts <= Max(1, s.config.maxAttempts) + crashes
            && !(d.sentAt.Some? && d.terminalAt.Some?)
            && (d.status.Pending? ==> d.attempts == 0 || d.attempts < s.config.maxAttempts)
            && Count(s.dlq, id) == (if d.terminalAt.Some? then 1 else 0)
            && (crashes == 0 && !HasJob(s.jobs, id) && d.attempts >= Max(1, s.config.maxAttempts) ==>
                  d.sentAt.Some? || d.terminalAt.Some?)
  {
    GuardedRun(s0, s);
    assert RowFine(s.rows[id], s.config.maxAttempts, Count(s.crashes, id), Count(s.dlq, id), HasJob(s.jobs, id));
  }

  /** No two deliveries of one row overlap in such runs. */
  lemma DeliveriesExclusive(s0: State, s: State, j: nat, k: nat)
    requires Init(s0) && Leads(GuardedNext, s0, s)
    requires j < k < |s.jobs| && s.jobs[j].phase != Over && s.jobs[k].phase != Over
    ensures s.jobs[j].row != s.jobs[k].row
  {
    GuardedRun(s0, s);
  }

  /** A row whose `n` deliveries crashed, when the lease of the last is over. */
  function CrashedRow(n: nat, now: int): Delivery {
    if n == 0 then Delivery(Pending, 0, 0, None, None, None)
    else Delivery(Leased, n, 0, Some(now), None, None)
  }

  lemma TakeGuarded(s0: State, s: State, a: Action) returns (t: State)
    requires Leads(GuardedNext, s0, s) && Enabled(s, a) && !ClaimsBusy(s, a)
    ensures t == Apply(s, a) && Leads(GuardedNext, s0, t)
  {
    t := Apply(s, a);
    LeadsStep(GuardedNext, s0, s, t);
  }

  ghost predicate CrashedSoFar(s: State, n: nat) {
    && s.now >= 0 && s.rows == [CrashedRow(n, s.now)]
    && |s.jobs| == n && (forall j :: 0 <= j < n ==> s.jobs[j].phase == Over)
    && Count(s.crashes, 0) == n && s.dlq == [] && s.sends == []
  }

  lemma CrashOnceMore(s0: State, s: State, n: nat) returns (t: State)
    requires Leads(GuardedNext, s0, s) && CrashedSoFar(s, n) && s.config.leaseMs >= 0
    ensures Leads(GuardedNext, s0, t) && CrashedSoFar(t, n + 1) && t.config == s.config
  {
    CountAppend(s.crashes, 0, 0);
    assert !HasJob(s.jobs, 0);
    t := TakeGuarded(s0, s, Claim(0));
    t := TakeGuarded(s0, t, Crash(n));
    t := TakeGuarded(s0, t, Tick(s.config.leaseMs));
  }

  /**
   Attempts do exceed any limit, by one for each crash: a row can be claimed
   `n + 1` times after `n` crashes, whatever maxAttempts is.
   */
  lemma {:induction false} CrashesAddAttempts(config: Config, n: nat) returns (s0: State, s: State)
    requires config.leaseMs >= 0
    ensures Init(s0) && Leads(GuardedNext, s0, s) && s.config == config && CrashedSoFar(s, n)
    ensures Enabled(s, Claim(0)) && !ClaimsBusy(s, Claim(0)) && Apply(s, Claim(0)).rows[0].attempts == n + 1
  {
    if n == 0 {
      s0 := State(config, 0, [], [], [], [], []);
      LeadsNowhere(GuardedNext, s0);
      s := TakeGuarded(s0, s0, Enqueue);
    } else {
      s0, s := CrashesAddAttempts(config, n - 1);
      s := CrashOnceMore(s0, s, n - 1);
    }
  }

  lemma GuardedIsRun(s0: State, s: State)
    requires Leads(GuardedNext, s0, s)
    ensures Leads(Next, s0, s)
  {
    var inv := (t: State) => Leads(Next, s0, t);
    LeadsNowhere(Next, s0);
    forall t, u | inv(t) && GuardedNext(t, u)
      ensures inv(u)
    {
      LeadsStep(Next, s0, t, u);
    }
    LeadsKeeps(GuardedNext, inv, s0, s);
  }

  /**
   The marks carry no fence: a delivery that outlives its lease marks the row
   sent, the next one, for which it is the last attempt, marks it terminal and
   reports a failure, and the row ends both sent and terminal.
   */
  lemma LateDeliveryClosesTwice(config: Config) returns (s0: State, s: State)
    requires config.leaseMs >= 0
    ensures Init(s0) && Leads(Next, s0, s) && s.config == config
    ensures |s.rows| == 1 && s.rows[0].sentAt.Some? && s.rows[0].terminalAt.Some? && s.dlq == [0]
  {
    var n: nat := Max(0, config.maxAttempts - 2);
    s0, s := CrashesAddAttempts(config, n);
    GuardedIsRun(s0, s);
    s := TakeStep(s0, s, Claim(0));
    s := TakeStep(s0, s, Tick(config.leaseMs));
    s := TakeStep(s0, s, Claim(0));
    s := TakeStep(s0, s, SmtpAccepts(n));
    s := TakeStep(s0, s, SmtpAccepts(n + 1));
    s := TakeStep(s0, s, MarkSent(n));
    s := TakeStep(s0, s, MarkSentFails(n + 1));
    s := TakeStep(s0, s, MarkFailure(n + 1));
  }

  lemma TakeStep(s0: State, s: State, a: Action) returns (t: State)
    requires Leads(Next, s0, s) && Enabled(s, a)
    ensures t == Apply(s, a) && Leads(Next, s0, t)
  {
    t := Apply(s, a);
    assert Next(s, t);
    LeadsStep(Next, s0, s, t);
  }

  // ------------------------------------------------------------ the worker

  /** Ids of the claimable rows, in id order. */
  function ClaimableIds(rows: seq<Delivery>, now: int): seq<nat> {
    Positions(rows, (d: Delivery) => Claimable(d, now))
  }

  /** The SELECT returns exactly the claimable rows, in increasing id order. */
  lemma ClaimableIdsFine(rows: seq<Delivery>, now: int)
    ensures Increasing(ClaimableIds(rows, now))
    ensures forall id: nat :: id in ClaimableIds(rows, now) <==> id < |rows| && Claimable(rows[id], now)
  {
    PositionsFine(rows, (d: Delivery) => Claimable(d, now));
  }

  /** The real worker postpones a failed delivery by its schedule, or gives it up at the last attempt. */
  lemma FailurePostpones(s: State, id: nat, seen: nat)
    requires id < |s.rows| && s.config == WorkerConfig(s.config.smtp, s.config.maxAttempts, s.config.leaseMs)
    ensures var d := AfterFailure(s, id, seen).rows[id];
            if seen + 1 >= s.config.maxAttempts then d.status.Terminal? && d.terminalAt == Some(s.now)
            else d.status.Pending? && s.now + 30000 <= d.availableAt == s.now + EmailRetryDelayMs(seen + 1) <= s.now + 7200000
  {
  }

  /** How one delivery went: sent and recorded, or failed at SMTP or at the record. */
  datatype Outcome = Ok | SmtpError(taken: bool) | RecordError

  /** A claimed row after its delivery, seen from the row before the claim. */
  function DeliveredRow(config: Config, d: Delivery, outcome: Outcome, now: int): Delivery {
    var tried := d.(attempts := d.attempts + 1, leaseUntil := None);
    if outcome.Ok? || (outcome.SmtpError? && !config.smtp) then tried.(status := Sent, sentAt := Some(now))
    else if d.attempts + 1 >= config.maxAttempts then tried.(status := Terminal, terminalAt := Some(now))
    else tried.(status := Pending, availableAt := now + config.retryDelayMs(d.attempts + 1))
  }

  predicate Fails(config: Config, outcome: Outcome) {
    (config.smtp && outcome.SmtpError?) || outcome.RecordError?
  }

  /** What `deliverOne` does. */
  function AfterDelivery(s: State, j: nat, outcome: Outcome): State
    requires JobIn(s, j, Claimed)
  {
    var id := s.jobs[j].row;
    var over := SetPhase(LogSend(s, id, IsSent(s.config, outcome)), j, Over);
    if Fails(s.config, outcome) then AfterFailure(over, id, s.jobs[j].seen)
    else SetRow(over, id, s.rows[id].(status := Sent, sentAt := Some(s.now), leaseUntil := None))
  }

  /** The SMTP server takes the message, whether or not it says so. */
  predicate IsSent(config: Config, outcome: Outcome) {
    config.smtp && (!outcome.SmtpError? || outcome.taken)
  }

  /** It takes two or three steps of the protocol. */
  lemma DeliveryLeads(s: State, j: nat, outcome: Outcome)
    requires JobIn(s, j, Claimed)
    ensures Leads(Next, s, AfterDelivery(s, j, outcome))
  {
    LeadsNowhere(Next, s);
    var t := s;
    if s.config.smtp && outcome.SmtpError? {
      t := TakeStep(s, s, SmtpFails(j, outcome.taken));
    } else {
      t := TakeStep(s, s, SmtpAccepts(j));
      if outcome.RecordError? {
        t := TakeStep(s, t, MarkSentFails(j));
      }
    }
    t := TakeStep(s, t, if Fails(s.config, outcome) then MarkFailure(j) else MarkSent(j));
    assert t.jobs == s.jobs[j := s.jobs[j].(phase := Over)];
    assert t == AfterDelivery(s, j, outcome);
  }

  /** A claimed delivery that has not started, as its row shows it. */
  ghost predicate JustClaimed(s: State, j: nat, d: Delivery) {
    && JobIn(s, j, Claimed)
    && s.jobs[j].seen == d.attempts
    && s.rows[s.jobs[j].row] == d.(status := Leased, attempts := d.attempts + 1, leaseUntil := Some(s.jobs[j].lease))
  }

  /** What one delivery amounts to for its row. */
  lemma DeliveryEffect(s: State, j: nat, outcome: Outcome, d: Delivery)
    requires JustClaimed(s, j, d)
    ensures var t := AfterDelivery(s, j, outcome);
            && t.rows == s.rows[s.jobs[j].row := DeliveredRow(s.config, d, outcome, s.now)]
            && t.jobs == s.jobs[j := s.jobs[j].(phase := Over)]
            && t.config == s.config && t.now == s.now
            && t.sends == s.sends + (if s.config.smtp && (!outcome.SmtpError? || outcome.taken) then [s.jobs[j].row] else [])
            && t.dlq == s.dlq + (if DeliveredRow(s.config, d, outcome, s.now).status.Terminal? then [s.jobs[j].row] else [])
  {
  }

  ghost predicate JobOfBatch(s: State, j: nat, id: nat, seen: nat, d: Delivery) {
    JustClaimed(s, j, d) && s.jobs[j].row == id && s.jobs[j].seen == seen
  }

  function FirstClaimable(rows: seq<Delivery>, now: int, limit: nat): seq<nat> {
    FirstPositions(rows, (d: Delivery) => Claimable(d, now), limit)
  }

  /** The ids are those of the first claimable rows: as many as the limit allows, none left out before one of them. */
  ghost predicate IsFirstClaimable(rows: seq<Delivery>, now: int, limit: nat, ids: seq<nat>) {
    TakesFirst(rows, (d: Delivery) => Claimable(d, now), limit, ids)
  }

  lemma FirstClaimableFine(rows: seq<Delivery>, now: int, limit: nat)
    ensures var ids := FirstClaimable(rows, now, limit);
            && IsFirstClaimable(rows, now, limit, ids)
            && Increasing(ids)
            && forall m :: 0 <= m < |ids| ==> ids[m] < |rows| && Claimable(rows[ids[m]], now)
  {
    FirstPositionsFine(rows, (d: Delivery) => Claimable(d, now), limit);
  }

  predicate InRows(ids: seq<nat>, rows: seq<Delivery>) {
    forall m :: 0 <= m < |ids| ==> ids[m] < |rows|
  }

  function SeenBy(rows: seq<Delivery>, ids: seq<nat>): seq<nat>
    requires InRows(ids, rows)
  {
    seq(|ids|, m requires 0 <= m < |ids| => rows[ids[m]].attempts)
  }

  function ClaimedRow(d: Delivery, lease: int): Delivery {
    d.(status := Leased, attempts := d.attempts + 1, leaseUntil := Some(lease))
  }

  function ClaimedRows(rows: seq<Delivery>, ids: seq<nat>, lease: int): seq<Delivery> {
    seq(|rows|, i requires 0 <= i < |rows| => if i in ids then ClaimedRow(rows[i], lease) else rows[i])
  }

  /** The claim of several rows in one transaction. */
  function ClaimBatch(s: State, ids: seq<nat>): State
    requires InRows(ids, s.rows)
  {
    var lease := s.now + s.config.leaseMs;
    s.(rows := ClaimedRows(s.rows, ids, lease),
       jobs := s.jobs + seq(|ids|, m requires 0 <= m < |ids| => Job(ids[m], s.rows[ids[m]].attempts, lease, Claimed)))
  }

  ghost predicate AllClaimable(s: State, ids: seq<nat>) {
    Increasing(ids) && forall m :: 0 <= m < |ids| ==> ids[m] < |s.rows| && Claimable(s.rows[ids[m]], s.now)
  }

  lemma ClaimOneMore(s: State, ids: seq<nat>, id: nat)
    requires AllClaimable(s, ids + [id])
    ensures InRows(ids, s.rows) && InRows(ids + [id], s.rows)
    ensures var mid := ClaimBatch(s, ids); Enabled(mid, Claim(id)) && Apply(mid, Claim(id)) == ClaimBatch(s, ids + [id])
  {
    var all := ids + [id];
    assert all[|ids|] == id;
    forall m | 0 <= m < |ids|
      ensures all[m] == ids[m] && ids[m] < id && ids[m] < |s.rows|
    {
      assert all[m] < all[|ids|];
    }
    var mid, t := ClaimBatch(s, ids), ClaimBatch(s, all);
    assert mid.rows[id] == s.rows[id];
    assert t.rows == mid.rows[id := ClaimedRow(s.rows[id], s.now + s.config.leaseMs)];
    assert t.jobs == mid.jobs + [Job(id, s.rows[id].attempts, s.now + s.config.leaseMs, Claimed)];
  }

  /** A batch claim is a run of single claims. */
  lemma {:induction false} ClaimBatchLeads(s: State, ids: seq<nat>)
    requires AllClaimable(s, ids)
    ensures InRows(ids, s.rows) && Leads(Next, s, ClaimBatch(s, ids))
    decreases |ids|
  {
    if ids == [] {
      LeadsNowhere(Next, s);
      assert ClaimBatch(s, ids) == s;
    } else {
      var last := |ids| - 1;
      assert ids == ids[..last] + [ids[last]];
      ClaimBatchLeads(s, ids[..last]);
      ClaimOneMore(s, ids[..last], ids[last]);
      var t := TakeStep(s, ClaimBatch(s, ids[..last]), Claim(ids[last]));
    }
  }

  /** Which rows of a batch are handed to the SMTP server. */
  function SentBy(config: Config, outcomes: nat -> Outcome): nat -> bool {
    (id: nat) => IsSent(config, outcomes(id))
  }

  /** Which rows of a batch become terminal. */
  function GivenUpBy(config: Config, rows: seq<Delivery>, outcomes: nat -> Outcome, now: int): nat -> bool {
    (id: nat) => id < |rows| && DeliveredRow(config, rows[id], outcomes(id), now).status.Terminal?
  }

  /** The state of a batch, claimed in state `s0`, after `k` of its deliveries. */
  ghost predicate BatchState(s0: State, s: State, ids: seq<nat>, k: nat, outcomes: nat -> Outcome) {
    && k <= |ids| && Increasing(ids) && InRows(ids, s0.rows)
    && s.config == s0.config && s.now == s0.now && |s.rows| == |s0.rows|
    && s.sends == s0.sends + Select(ids[..k], SentBy(s0.config, outcomes))
    && s.dlq == s0.dlq + Select(ids[..k], GivenUpBy(s0.config, s0.rows, outcomes, s0.now))
    && (forall i: nat :: i < |s.rows| && i !in ids ==> s.rows[i] == s0.rows[i])
    && (forall m :: 0 <= m < k ==> s.rows[ids[m]] == DeliveredRow(s.config, s0.rows[ids[m]], outcomes(ids[m]), s.now))
    && (forall m :: k <= m < |ids| ==> JobOfBatch(s, |s0.jobs| + m, ids[m], s0.rows[ids[m]].attempts, s0.rows[ids[m]]))
  }

  lemma BatchJob(s: State, ids: seq<nat>, m: nat)
    requires InRows(ids, s.rows) && m < |ids|
    ensures JobOfBatch(ClaimBatch(s, ids), |s.jobs| + m, ids[m], s.rows[ids[m]].attempts, s.rows[ids[m]])
  {
    assert ids[m] in ids;
  }

  lemma ClaimBatchFine(s: State, ids: seq<nat>, outcomes: nat -> Outcome)
    requires AllClaimable(s, ids)
    ensures InRows(ids, s.rows) && Leads(Next, s, ClaimBatch(s, ids))
    ensures BatchState(s, ClaimBatch(s, ids), ids, 0, outcomes)
  {
    ClaimBatchLeads(s, ids);
    var t := ClaimBatch(s, ids);
    forall m: nat | m < |ids|
      ensures JobOfBatch(t, |s.jobs| + m, ids[m], s.rows[ids[m]].attempts, s.rows[ids[m]])
    {
      BatchJob(s, ids, m);
    }
  }

  lemma DeliverOneMore(s0: State, s: State, ids: seq<nat>, k: nat, outcomes: nat -> Outcome)
    requires BatchState(s0, s, ids, k, outcomes) && k < |ids| && Leads(Next, s0, s)
    ensures JobOfBatch(s, |s0.jobs| + k, ids[k], s0.rows[ids[k]].attempts, s0.rows[ids[k]])
    ensures var t := AfterDelivery(s, |s0.jobs| + k, outcomes(ids[k]));
            Leads(Next, s0, t) && BatchState(s0, t, ids, k + 1, outcomes)
  {
    var j := |s0.jobs| + k;
    DeliveryLeads(s, j, outcomes(ids[k]));
    DeliveryEffect(s, j, outcomes(ids[k]), s0.rows[ids[k]]);
    var t := AfterDelivery(s, j, outcomes(ids[k]));
    LeadsTransitive(Next, s0, s, t);
    SelectOneMore(ids, k, SentBy(s0.config, outcomes));
    SelectOneMore(ids, k, GivenUpBy(s0.config, s0.rows, outcomes, s0.now));
    forall m | k + 1 <= m < |ids|
      ensures JobOfBatch(t, |s0.jobs| + m, ids[m], s0.rows[ids[m]].attempts, s0.rows[ids[m]])
    {
      assert JobOfBatch(s, |s0.jobs| + m, ids[m], s0.rows[ids[m]].attempts, s0.rows[ids[m]]);
    }
  }

  /** Only the claimed rows change, each as its delivery went. */
  ghost predicate BatchResult(config: Config, now: int, before: seq<Delivery>, after: seq<Delivery>, ids: seq<nat>, outcomes: nat -> Outcome) {
    && |after| == |before|
    && forall i: nat :: i < |before| ==>
         after[i] == if i in ids then DeliveredRow(config, before[i], outcomes(i), now) else before[i]
  }

  /** Each claimed row is sent once if its outcome says so, and reported once if it becomes terminal; no other row is. */
  ghost predicate BatchHistories(s0: State, s: State, ids: seq<nat>, outcomes: nat -> Outcome) {
    forall id: nat :: id < |s0.rows| ==>
      && Count(s.sends, id) == Count(s0.sends, id)
         + (if id in ids && s0.config.smtp && (!outcomes(id).SmtpError? || outcomes(id).taken) then 1 else 0)
      && Count(s.dlq, id) == Count(s0.dlq, id)
         + (if id in ids && DeliveredRow(s0.config, s0.rows[id], outcomes(id), s0.now).status.Terminal? then 1 else 0)
  }

  lemma BatchEnds(s0: State, s: State, ids: seq<nat>, outcomes: nat -> Outcome)
    requires BatchState(s0, s, ids, |ids|, outcomes)
    ensures BatchResult(s0.config, s0.now, s0.rows, s.rows, ids, outcomes)
    ensures BatchHistories(s0, s, ids, outcomes)
  {
    assert ids[..|ids|] == ids;
    var sent, given := SentBy(s0.config, outcomes), GivenUpBy(s0.config, s0.rows, outcomes, s0.now);
    forall id: nat | id < |s0.rows|
      ensures Count(s.sends, id) == Count(s0.sends, id) + if id in ids && sent(id) then 1 else 0
      ensures Count(s.dlq, id) == Count(s0.dlq, id) + if id in ids && given(id) then 1 else 0
    {
      CountConcat(s0.sends, Select(ids, sent), id);
      SelectCount(ids, sent, id);
      CountConcat(s0.dlq, Select(ids, given), id);
      SelectCount(ids, given, id);
    }
  }

  class Worker {
    const config: Config
    var now: int
    var rows: seq<Delivery>
    var sends: seq<nat>
    var dlq: seq<nat>
    ghost var jobs: seq<Job>
    ghost var crashes: seq<nat>

    ghost function Model(): State
      reads this
    {
      State(config, now, rows, jobs, sends, dlq, crashes)
    }

    method MarkDeliveryFailure(id: nat, seen: nat)
      requires id < |rows|
      modifies this`rows, this`dlq
      ensures Model() == AfterFailure(old(Model()), id, seen)
    {
      var attempt := seen + 1;
      if attempt >= config.maxAttempts {
        rows := rows[id := rows[id].(status := Terminal, terminalAt := Some(now), leaseUntil := None)];
        dlq := dlq + [id];
      } else {
        rows := rows[id := rows[id].(status := Pending, leaseUntil := None, availableAt := now + config.retryDelayMs(attempt))];
      }
    }

    /** `deliverOne`: the row is marked sent, or failed whichever call threw. */
    method DeliverOne(id: nat, seen: nat, outcome: Outcome, ghost j: nat)
      requires JobIn(Model(), j, Claimed) && jobs[j].row == id && jobs[j].seen == seen
      modifies this`rows, this`sends, this`dlq, this`jobs
      ensures Model() == AfterDelivery(old(Model()), j, outcome)
      ensures sends == old(sends) + if config.smtp && (!outcome.SmtpError? || outcome.taken) then [id] else []
    {
      jobs := jobs[j := jobs[j].(phase := Over)];
      var thrown := false;
      if config.smtp {
        if !outcome.SmtpError? || outcome.taken {
          sends := sends + [id];
        }
        thrown := outcome.SmtpError?;
      }
      if !thrown && !outcome.RecordError? {
        rows := rows[id := rows[id].(status := Sent, sentAt := Some(now), leaseUntil := None)];
      } else {
        MarkDeliveryFailure(id, seen);
      }
    }

    /** `claimDeliveries` */
    method ClaimDeliveries(limit: nat) returns (ids: seq<nat>, seen: seq<nat>)
      modifies this`rows, this`jobs
      ensures IsFirstClaimable(old(rows), now, limit, ids) && ids == FirstClaimable(old(rows), now, limit) && InRows(ids, old(rows))
      ensures seen == SeenBy(old(rows), ids)
      ensures Model() == ClaimBatch(old(Model()), ids)
    {
      ids := FirstClaimable(rows, now, limit);
      FirstClaimableFine(rows, now, limit);
      seen := SeenBy(rows, ids);
      jobs := ClaimBatch(Model(), ids).jobs;
      rows := ClaimedRows(rows, ids, now + config.leaseMs);
    }

    method DeliverKth(ids: seq<nat>, seen: seq<nat>, k: nat, outcomes: nat -> Outcome, ghost s0: State)
      requires Leads(Next, s0, Model()) && BatchState(s0, Model(), ids, k, outcomes)
      requires k < |ids| && seen == SeenBy(s0.rows, ids)
      modifies this`rows, this`sends, this`dlq, this`jobs
      ensures Leads(Next, s0, Model()) && BatchState(s0, Model(), ids, k + 1, outcomes)
    {
      DeliverOneMore(s0, Model(), ids, k, outcomes);
      DeliverOne(ids[k], seen[k], outcomes(ids[k]), |s0.jobs| + k);
    }

    /** `runEmailDeliveryBatch`: the first claimable rows are claimed, then each is delivered and marked. */
    method RunEmailDeliveryBatch(limit: nat, outcomes: nat -> Outcome) returns (count: nat, ids: seq<nat>)
      modifies this`rows, this`sends, this`dlq, this`jobs
      ensures Leads(Next, old(Model()), Model())
      ensures count == |ids| && IsFirstClaimable(old(rows), now, limit, ids)
      ensures BatchResult(config, now, old(rows), rows, ids, outcomes)
      ensures BatchHistories(old(Model()), Model(), ids, outcomes)
    {
      ghost var s0 := Model();
      FirstClaimableFine(rows, now, limit);
      var seen;
      ids, seen := ClaimDeliveries(limit);
      ClaimBatchFine(s0, ids, outcomes);
      count := |ids|;
      for k := 0 to |ids|
        invariant Leads(Next, s0, Model()) && BatchState(s0, Model(), ids, k, outcomes)
      {
        DeliverKth(ids, seen, k, outcomes, s0);
      }
      BatchEnds(s0, Model(), ids, outcomes);
    }
  }
}
