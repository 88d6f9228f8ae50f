/**
 The lock a benchmark seeder takes on every Redis shard before it resets the
 auctions. Each Redis command is one step; between commands other seeders run,
 time passes and replies may be lost.
 */
module BootstrapLock {
  import opened Prelude
  import opened Paths

  const TTL_MS := 300_000

  datatype Key = Key(token: nat, expires: int)

  /** An expired key is as good as absent. */
  predicate Live(key: Option<Key>, now: int) {
    key.Some? && now < key.value.expires
  }

  // ------------------------------------------------------- Redis commands

  /** `SET key token PX ttl NX`. */
  function SetIfAbsent(key: Option<Key>, now: int, token: nat): Option<Key> {
    if Live(key, now) then key else Some(Key(token, now + TTL_MS))
  }

  /** The script that deletes the key if it still holds the token. */
  function CompareAndDelete(key: Option<Key>, token: nat): Option<Key> {
    if key.Some? && key.value.token == token then None else key
  }

  // ------------------------------------------------------------------ state

  /** `Undoing` and `Releasing` hold the shards whose compare-and-delete is still to run. */
  datatype Phase =
    | Acquiring
    | Checking(unseen: set<nat>, fenced: bool)
    | Undoing(left: set<nat>)
    | Holding
    | Releasing(left: set<nat>)
    | Failed
    | Released
    | Crashed

  /** `setAt` lists the times of the SETs that returned OK; `lost` holds the shards where an unanswered command may have left the key. */
  datatype Seeder = Seeder(phase: Phase, setAt: seq<int>, lost: set<nat>)

  /** A seeder's token is its number. */
  datatype State = State(now: int, keys: seq<Option<Key>>, fences: seq<bool>, seeders: seq<Seeder>)

  datatype Action =
    | Tick(elapsed: nat)
    | Fence(shard: nat, up: bool)
    | Begin
    | Set(id: nat)
    | SetThrows(id: nat, applied: bool)
    | Look(id: nat, shard: nat)
    | LookThrows(id: nat)
    | Conclude(id: nat)
    | Finish(id: nat)
    | Delete(id: nat, shard: nat)
    | DeleteThrows(id: nat, shard: nat)
    | Close(id: nat)
    | Crash(id: nat)

  function Shards(n: nat): (shards: set<nat>)
    ensures forall k: nat :: k in shards <==> k < n
  {
    if n == 0 then {} else Shards(n - 1) + {n - 1}
  }

  predicate Init(s: State) {
    |s.keys| == |s.fences| > 0 && (forall k :: 0 <= k < |s.keys| ==> s.keys[k] == None) && s.seeders == []
  }

  predicate IsAcquiring(s: State, id: nat) {
    id < |s.seeders| && s.seeders[id].phase.Acquiring? && |s.seeders[id].setAt| < |s.keys|
  }

  predicate IsDeleting(phase: Phase) {
    phase.Undoing? || phase.Releasing?
  }

  predicate Enabled(s: State, a: Action) {
    match a
    case Tick(_) => true
    case Fence(shard, _) => shard < |s.fences|
    case Begin => true
    case Set(id) => IsAcquiring(s, id)
    case SetThrows(id, _) => IsAcquiring(s, id)
    case Look(id, shard) =>
      id < |s.seeders| && s.seeders[id].phase.Checking? && shard in s.seeders[id].phase.unseen && shard < |s.fences|
    case LookThrows(id) => id < |s.seeders| && s.seeders[id].phase.Checking?
    case Conclude(id) => id < |s.seeders| && s.seeders[id].phase.Checking? && s.seeders[id].phase.unseen == {}
    case Finish(id) => id < |s.seeders| && s.seeders[id].phase.Holding?
    case Delete(id, shard) =>
      id < |s.seeders| && IsDeleting(s.seeders[id].phase) && shard in s.seeders[id].phase.left && shard < |s.keys|
    case DeleteThrows(id, shard) =>
      id < |s.seeders| && IsDeleting(s.seeders[id].phase) && shard in s.seeders[id].phase.left && shard < |s.keys|
    case Close(id) => id < |s.seeders| && IsDeleting(s.seeders[id].phase) && s.seeders[id].phase.left == {}
    case Crash(id) => id < |s.seeders|
  }

  predicate IsActor(a: Action) {
    !a.Tick? && !a.Fence? && !a.Begin?
  }

  /** The seeder after its action. */
  function Moved(s: State, a: Action): Seeder
    requires Enabled(s, a) && IsActor(a)
  {
    var was := s.seeders[a.id];
    var next := |was.setAt|;
    match a
    case Set(_) =>
      if Live(s.keys[next], s.now) then was.(phase := Undoing(Shards(next)))
      else was.(setAt := was.setAt + [s.now],
                phase := if next + 1 == |s.keys| then Checking(Shards(|s.keys|), false) else Acquiring)
    case SetThrows(_, applied) =>
      was.(phase := Undoing(Shards(next)),
           lost := if applied && !Live(s.keys[next], s.now) then was.lost + {next} else was.lost)
    case Look(_, shard) => was.(phase := Checking(was.phase.unseen - {shard}, was.phase.fenced || s.fences[shard]))
    case LookThrows(_) => was.(phase := Undoing(Shards(|s.keys|)))
    case Conclude(_) => was.(phase := if was.phase.fenced then Undoing(Shards(|s.keys|)) else Holding)
    case Finish(_) => was.(phase := Releasing(Shards(|s.keys|)))
    case Delete(_, shard) => was.(phase := was.phase.(left := was.phase.left - {shard}))
    case DeleteThrows(_, shard) => was.(phase := was.phase.(left := was.phase.left - {shard}), lost := was.lost + {shard})
    case Close(_) => was.(phase := if was.phase.Undoing? then Failed else Released)
    case Crash(_) => was.(phase := Crashed)
  }

  /** The keys after an action. */
  function KeysAfter(s: State, a: Action): seq<Option<Key>>
    requires Enabled(s, a)
  {
    match a
    case Set(id) =>
      var next := |s.seeders[id].setAt|;
      s.keys[next := SetIfAbsent(s.keys[next], s.now, id)]
    case SetThrows(id, applied) =>
      var next := |s.seeders[id].setAt|;
      if applied then s.keys[next := SetIfAbsent(s.keys[next], s.now, id)] else s.keys
    case Delete(id, shard) => s.keys[shard := CompareAndDelete(s.keys[shard], id)]
    case _ => s.keys
  }

  function Apply(s: State, a: Action): State
    requires Enabled(s, a)
  {
    match a
    case Tick(elapsed) => s.(now := s.now + elapsed)
    case Fence(shard, up) => s.(fences := s.fences[shard := up])
    case Begin => s.(seeders := s.seeders + [Seeder(Acquiring, [], {})])
    case _ => s.(seeders := s.seeders[a.id := Moved(s, a)], keys := KeysAfter(s, a))
  }

  ghost predicate Step(s: State, t: State) {
    exists a :: Enabled(s, a) && t == Apply(s, a)
  }

  // -------------------------------------------------------------- invariant

  ghost predicate Owns(s: State, id: nat, k: nat) {
    k < |s.keys| && s.keys[k].Some? && s.keys[k].value.token == id
  }

  ghost predicate OwnsLive(s: State, id: nat, k: nat) {
    Owns(s, id, k) && Live(s.keys[k], s.now)
  }

  /** The shards where a seeder's key may be. */
  ghost predicate MayOwn(who: Seeder, k: nat) {
    match who.phase
    case Acquiring => k < |who.setAt|
    case Undoing(left) => k in left || k in who.lost
    case Releasing(left) => k in left || k in who.lost
    case Failed => k in who.lost
    case Released => k in who.lost
    case _ => true
  }

  /** Every key set is still there until it expires, unless the seeder has begun to delete its keys. */
  ghost predicate KeepsKeys(s: State, id: nat, who: Seeder) {
    who.phase.Acquiring? || who.phase.Checking? || who.phase.Holding? ==>
      forall k :: 0 <= k < |who.setAt| && k < |s.keys| && s.now < who.setAt[k] + TTL_MS ==> s.keys[k] == Some(Key(id, who.setAt[k] + TTL_MS))
  }

  ghost predicate Times(s: State, who: Seeder) {
    && |who.setAt| <= |s.keys|
    && (who.phase.Checking? || who.phase.Holding? ==> |who.setAt| == |s.keys|)
    && (forall j, k :: 0 <= j <= k < |who.setAt| ==> who.setAt[j] <= who.setAt[k])
    && (forall k :: 0 <= k < |who.setAt| ==> who.setAt[k] <= s.now)
  }

  /** A key whose SET was answered expires when it should. */
  ghost predicate Dated(s: State, id: nat, who: Seeder) {
    forall k: nat :: Owns(s, id, k) && k < |who.setAt| ==> s.keys[k].value.expires == who.setAt[k] + TTL_MS
  }

  ghost predicate SeederFine(s: State, id: nat, who: Seeder) {
    && Times(s, who)
    && KeepsKeys(s, id, who)
    && Dated(s, id, who)
    && forall k: nat :: Owns(s, id, k) ==> MayOwn(who, k)
  }

  ghost predicate Inv(s: State) {
    && |s.keys| == |s.fences| > 0
    && (forall k :: 0 <= k < |s.keys| && s.keys[k].Some? ==> s.keys[k].value.token < |s.seeders|)
    && forall id :: 0 <= id < |s.seeders| ==> SeederFine(s, id, s.seeders[id])
  }

  /** What an action does to one key: nothing, a SET over no live key, or a delete of the actor's own. */
  lemma KeyMoves(s: State, a: Action, k: nat)
    requires Enabled(s, a) && k < |s.keys|
    ensures |KeysAfter(s, a)| == |s.keys|
    ensures var key := KeysAfter(s, a)[k];
            || key == s.keys[k]
            || ((a.Set? || a.SetThrows?) && k == |s.seeders[a.id].setAt| && !Live(s.keys[k], s.now) && key == Some(Key(a.id, s.now + TTL_MS)))
            || (a.Delete? && a.shard == k && Owns(s, a.id, k) && key == None)
  {
  }

  lemma OthersStay(s: State, a: Action, id: nat)
    requires Inv(s) && Enabled(s, a) && id < |s.seeders| && (!IsActor(a) || a.id != id)
    ensures SeederFine(Apply(s, a), id, s.seeders[id])
  {
    var t, who := Apply(s, a), s.seeders[id];
    assert SeederFine(s, id, who);
    forall k: nat | k < |s.keys|
      ensures Owns(t, id, k) ==> Owns(s, id, k)
      ensures s.keys[k].Some? && s.keys[k].value.token == id && s.now < s.keys[k].value.expires ==> t.keys[k] == s.keys[k]
    {
      KeyMoves(s, a, k);
    }
    assert |t.keys| == |s.keys|;
  }

  lemma ActorMayOwn(s: State, a: Action, k: nat)
    requires Inv(s) && Enabled(s, a) && IsActor(a) && Owns(Apply(s, a), a.id, k)
    ensures MayOwn(Moved(s, a), k)
  {
    KeyMoves(s, a, k);
    assert SeederFine(s, a.id, s.seeders[a.id]);
    assert Owns(s, a.id, k) ==> MayOwn(s.seeders[a.id], k);
  }

  lemma ActorDated(s: State, a: Action)
    requires Inv(s) && Enabled(s, a) && IsActor(a)
    ensures Dated(Apply(s, a), a.id, Moved(s, a))
  {
    assert SeederFine(s, a.id, s.seeders[a.id]);
    forall k: nat | Owns(Apply(s, a), a.id, k) && k < |Moved(s, a).setAt|
      ensures Apply(s, a).keys[k].value.expires == Moved(s, a).setAt[k] + TTL_MS
    {
      KeyMoves(s, a, k);
      assert Owns(s, a.id, k) && k < |s.seeders[a.id].setAt| ==>
          s.keys[k].value.expires == s.seeders[a.id].setAt[k] + TTL_MS;
    }
  }

  lemma ActorKeepsKeys(s: State, a: Action)
    requires Inv(s) && Enabled(s, a) && IsActor(a)
    ensures KeepsKeys(Apply(s, a), a.id, Moved(s, a))
  {
    assert SeederFine(s, a.id, s.seeders[a.id]);
  }

  lemma ActorTimes(s: State, a: Action)
    requires Inv(s) && Enabled(s, a) && IsActor(a)
    ensures Times(Apply(s, a), Moved(s, a))
  {
    assert SeederFine(s, a.id, s.seeders[a.id]);
  }

  lemma ActorFine(s: State, a: Action)
    requires Inv(s) && Enabled(s, a) && IsActor(a)
    ensures SeederFine(Apply(s, a), a.id, Moved(s, a))
  {
    var t, who := Apply(s, a), Moved(s, a);
    forall k: nat | Owns(t, a.id, k)
      ensures MayOwn(who, k)
    {
      ActorMayOwn(s, a, k);
    }
    ActorDated(s, a);
    ActorKeepsKeys(s, a);
    ActorTimes(s, a);
  }

  /** Every step keeps the invariant. */
  lemma ActionKeeps(s: State, a: Action)
    requires Inv(s) && Enabled(s, a)
    ensures Inv(Apply(s, a))
  {
    var t := Apply(s, a);
    forall id | 0 <= id < |t.seeders|
      ensures SeederFine(t, id, t.seeders[id])
    {
      if !IsActor(a) || a.id != id {
        if id < |s.seeders| {
          OthersStay(s, a, id);
        }
      } else {
        ActorFine(s, a);
      }
    }
    TokensFine(s, a);
  }

  lemma TokensFine(s: State, a: Action)
    requires Inv(s) && Enabled(s, a)
    ensures var t := Apply(s, a);
            && |t.keys| == |t.fences| > 0
            && forall k :: 0 <= k < |t.keys| && t.keys[k].Some? ==> t.keys[k].value.token < |t.seeders|
  {
    var t := Apply(s, a);
    forall k | 0 <= k < |s.keys| && t.keys[k].Some?
      ensures t.keys[k].value.token < |t.seeders|
    {
      KeyMoves(s, a, k);
    }
  }

  lemma RunKeeps(s: State, t: State)
    requires Init(s) && Leads(Step, s, t)
    ensures Inv(t)
  {
    LeadsInv(s, t);
  }

  lemma LeadsInv(s: State, t: State)
    requires Inv(s) && Leads(Step, s, t)
    ensures Inv(t)
  {
    forall a, b | Inv(a) && Step(a, b)
      ensures Inv(b)
    {
      var action :| Enabled(a, action) && b == Apply(a, action);
      ActionKeeps(a, action);
    }
    LeadsKeeps(Step, Inv, s, t);
  }

  // ------------------------------------------------------------ when things fail

  /** However acquire fails, every key the seeder has is one it deletes next, or one whose SET was not answered. */
  lemma FailureUndoes(s: State, a: Action)
    requires Inv(s) && Enabled(s, a)
    requires || a.SetThrows? || a.LookThrows?
             || (a.Set? && Live(s.keys[|s.seeders[a.id].setAt|], s.now))
             || (a.Conclude? && s.seeders[a.id].phase.fenced)
    ensures var t := Apply(s, a);
            var who := t.seeders[a.id];
            && who.phase.Undoing?
            && forall k: nat :: Owns(t, a.id, k) ==> k in who.phase.left || k in who.lost
  {
    ActorFine(s, a);
  }

  /** The deletes of a failed acquire or of a release are tried once on each shard, whether they throw or not. */
  lemma DeletesAreTriedOnce(s: State, a: Action)
    requires Enabled(s, a) && (a.Delete? || a.DeleteThrows?)
    ensures var was, phase := s.seeders[a.id].phase, Apply(s, a).seeders[a.id].phase;
            && a.shard in was.left && IsDeleting(phase) && (phase.Undoing? <==> was.Undoing?)
            && phase.left == was.left - {a.shard}
  {
  }

  /** A shard is counted as lost exactly if its delete threw, or if its SET took the key but threw. */
  lemma LostExactly(s: State, a: Action, k: nat)
    requires Enabled(s, a) && IsActor(a)
    ensures k in Apply(s, a).seeders[a.id].lost <==>
            || k in s.seeders[a.id].lost
            || a == DeleteThrows(a.id, k)
            || (a == SetThrows(a.id, true) && k == |s.seeders[a.id].setAt| && !Live(s.keys[k], s.now))
  {
  }

  /** A seeder that has died does nothing more, and its keys stay as they are. */
  lemma CrashedDoesNothing(s: State, a: Action, b: Action)
    requires Enabled(s, a) && a.Crash? && Enabled(Apply(s, a), b) && IsActor(b) && b.id == a.id
    ensures Apply(Apply(s, a), b).keys == s.keys
  {
  }

  /** The seeder has seen a fence, or its acquire has already failed. */
  predicate CannotHold(phase: Phase) {
    (phase.Checking? && phase.fenced) || phase.Undoing? || phase.Failed? || phase.Crashed?
  }

  /** An acquire that looks at a shard with its fence up never succeeds. */
  lemma FenceStops(s: State, t: State, id: nat, shard: nat)
    requires Enabled(s, Fence(shard, true)) && Enabled(s, Look(id, shard))
    requires Leads(Step, Apply(Apply(s, Fence(shard, true)), Look(id, shard)), t)
    ensures id < |t.seeders| && CannotHold(t.seeders[id].phase)
  {
    var looked := Apply(Apply(s, Fence(shard, true)), Look(id, shard));
    var stopped := (u: State) => id < |u.seeders| && CannotHold(u.seeders[id].phase);
    assert looked.seeders[id].phase.fenced;
    forall a, b | stopped(a) && Step(a, b)
      ensures stopped(b)
    {
      var action :| Enabled(a, action) && b == Apply(a, action);
      StaysStopped(a, action, id);
    }
    LeadsKeeps(Step, stopped, looked, t);
  }

  lemma StaysStopped(s: State, a: Action, id: nat)
    requires id < |s.seeders| && CannotHold(s.seeders[id].phase) && Enabled(s, a)
    ensures id < |Apply(s, a).seeders| && CannotHold(Apply(s, a).seeders[id].phase)
  {
  }

  // ------------------------------------------------------------ main results

  /** A live key leaves its shard only when its own seeder deletes it or its time is over, however late any other release is. */
  lemma OnlyTheOwnerDeletes(s: State, a: Action, owner: nat, k: nat)
    requires Enabled(s, a) && OwnsLive(s, owner, k) && a != Delete(owner, k)
    ensures k < |Apply(s, a).keys| && Apply(s, a).keys[k] == s.keys[k]
  {
    KeyMoves(s, a, k);
  }

  /** In every run, a seeder that failed or released has a key left only where a reply was lost. */
  lemma NothingLeft(s: State, t: State, id: nat, k: nat)
    requires Init(s) && Leads(Step, s, t)
    requires id < |t.seeders| && t.seeders[id].phase in {Failed, Released} && Owns(t, id, k)
    ensures k in t.seeders[id].lost
  {
    RunKeeps(s, t);
    assert SeederFine(t, id, t.seeders[id]);
  }

  /** The seeder has set all its keys and not begun to delete them, and the first has not expired. */
  predicate InTime(s: State, id: nat) {
    && id < |s.seeders|
    && (s.seeders[id].phase.Checking? || s.seeders[id].phase.Holding?)
    && |s.seeders[id].setAt| > 0
    && s.now < s.seeders[id].setAt[0] + TTL_MS
  }

  /** In every run at most one seeder at a time holds the lock within the time of its first key, and it owns every shard. */
  lemma MutualExclusion(s: State, t: State, a: nat, b: nat)
    requires Init(s) && Leads(Step, s, t)
    requires InTime(t, a) && InTime(t, b)
    ensures a == b && forall k :: 0 <= k < |t.keys| ==> OwnsLive(t, a, k)
  {
    RunKeeps(s, t);
    AllOwned(t, a);
    AllOwned(t, b);
    assert OwnsLive(t, a, 0) && OwnsLive(t, b, 0);
  }

  lemma AllOwned(s: State, id: nat)
    requires Inv(s) && InTime(s, id)
    ensures forall k :: 0 <= k < |s.keys| ==> OwnsLive(s, id, k)
  {
    var who := s.seeders[id];
    assert SeederFine(s, id, who);
    forall k | 0 <= k < |s.keys|
      ensures OwnsLive(s, id, k)
    {
      assert who.setAt[0] <= who.setAt[k];
    }
  }

  /** The last thing acquire does: no fence was seen, and the token is returned. */
  predicate CanSucceed(s: State, id: nat) {
    Enabled(s, Conclude(id)) && !s.seeders[id].phase.fenced
  }

  /**
   While one seeder's keys are live on all shards, another acquire that is about
   to succeed has outlived its own last key: it spent a whole time-to-live on
   looking for fences. As long as it has not, the keys on the last shard are its.
   */
  lemma SucceedsOnlyLate(s: State, t: State, owner: nat, other: nat)
    requires Init(s) && Leads(Step, s, t) && CanSucceed(t, other) && owner != other
    ensures |t.seeders[other].setAt| == |t.keys| > 0
    ensures var last := t.seeders[other].setAt[|t.keys| - 1];
            OwnsLive(t, other, |t.keys| - 1) <==> t.now < last + TTL_MS
    ensures (forall k :: 0 <= k < |t.keys| ==> OwnsLive(t, owner, k)) ==>
              t.now >= t.seeders[other].setAt[|t.keys| - 1] + TTL_MS
  {
    RunKeeps(s, t);
    var who := t.seeders[other];
    assert SeederFine(t, other, who);
    var n := |t.keys| - 1;
    assert (forall k :: 0 <= k < |t.keys| ==> OwnsLive(t, owner, k)) ==> OwnsLive(t, owner, n);
  }

  lemma ActionLeads(start: State, s: State, a: Action) returns (t: State)
    requires Leads(Step, start, s) && Enabled(s, a)
    ensures t == Apply(s, a) && Leads(Step, start, t)
  {
    t := Apply(s, a);
    LeadsStep(Step, start, s, t);
  }

  /** A SET that is applied but whose reply is lost does leave the key of a failed acquire behind. */
  lemma LostReplyLeavesKey() returns (start: State, s: State)
    ensures Init(start) && Leads(Step, start, s)
    ensures |s.seeders| == 1 && s.seeders[0].phase == Failed && OwnsLive(s, 0, 0)
  {
    start := State(0, [None], [false], []);
    LeadsNowhere(Step, start);
    s := ActionLeads(start, start, Begin);
    s := ActionLeads(start, s, SetThrows(0, true));
    assert s.seeders[0].phase == Undoing(Shards(0));
    s := ActionLeads(start, s, Close(0));
  }

  /** On one shard a new seeder gets as far as having seen no fence. */
  lemma NewSeederLooks(start: State, s: State) returns (t: State)
    requires Leads(Step, start, s) && |s.keys| == 1 && !Live(s.keys[0], s.now) && s.fences == [false]
    ensures Leads(Step, start, t)
    ensures t == State(s.now, [Some(Key(|s.seeders|, s.now + TTL_MS))], [false],
                       s.seeders + [Seeder(Checking({}, false), [s.now], {})])
  {
    var id := |s.seeders|;
    t := ActionLeads(start, s, Begin);
    t := ActionLeads(start, t, Set(id));
    assert t.seeders[id].setAt == [s.now];
    assert t.seeders == s.seeders + [Seeder(Checking(Shards(1), false), [s.now], {})];
    t := ActionLeads(start, t, Look(id, 0));
    assert Shards(1) - {0} == {};
    assert t.seeders == s.seeders + [Seeder(Checking({}, false), [s.now], {})];
  }

  /** That can happen: a seeder that looks for the fence too slowly succeeds although the next one holds every key. */
  lemma SlowSeederSucceedsToo() returns (start: State, s: State)
    ensures Init(start) && Leads(Step, start, s)
    ensures |s.seeders| == 2 && s.seeders[0].phase == s.seeders[1].phase == Holding
    ensures forall k :: 0 <= k < |s.keys| ==> OwnsLive(s, 1, k)
  {
    start := State(0, [None], [false], []);
    LeadsNowhere(Step, start);
    s := NewSeederLooks(start, start);
    s := ActionLeads(start, s, Tick(TTL_MS));
    s := NewSeederLooks(start, s);
    s := ActionLeads(start, s, Conclude(1));
    s := ActionLeads(start, s, Conclude(0));
  }

  // ---------------------------------------------------- one seeder at a time

  /** What the seeders and the shards hold, and a seeder's code run without others in between and with every command answered. */
  class Cluster {
    var now: int
    var keys: seq<Option<Key>>
    var fences: seq<bool>
    var seeders: seq<Seeder>

    function Model(): State
      reads this
    {
      State(now, keys, fences, seeders)
    }

    constructor (now: int, n: nat)
      requires n > 0
      ensures Init(Model()) && |keys| == n
    {
      this.now, keys, fences, seeders := now, seq(n, _ => None), seq(n, _ => false), [];
    }

    /** A new seeder, with a new token. */
    method Enter()
      modifies this`seeders
      ensures Model() == Apply(old(Model()), Begin)
    {
      seeders := seeders + [Seeder(Acquiring, [], {})];
    }

    /** One SET, and the push or the throw after it. */
    method SetKey(id: nat, ghost start: State) returns (ok: bool)
      requires IsAcquiring(Model(), id) && Leads(Step, start, Model())
      modifies this`keys, this`seeders
      ensures Leads(Step, start, Model())
      ensures var next := |old(seeders)[id].setAt|;
              && (ok <==> !Live(old(keys)[next], now))
              && keys == (if ok then old(keys)[next := Some(Key(id, now + TTL_MS))] else old(keys))
              && |seeders| == |old(seeders)| && seeders == old(seeders)[id := seeders[id]] && seeders[id].lost == old(seeders)[id].lost
              && (ok ==> seeders[id].setAt == old(seeders)[id].setAt + [now])
              && seeders[id].phase == if !ok then Undoing(Shards(next))
                                      else if next + 1 == |keys| then Checking(Shards(|keys|), false) else Acquiring
    {
      ghost var before := Model();
      var next := |seeders[id].setAt|;
      ok := !Live(keys[next], now);
      if ok {
        keys := keys[next := Some(Key(id, now + TTL_MS))];
        var phase := if next + 1 == |keys| then Checking(Shards(|keys|), false) else Acquiring;
        seeders := seeders[id := Seeder(phase, seeders[id].setAt + [now], seeders[id].lost)];
      } else {
        seeders := seeders[id := seeders[id].(phase := Undoing(Shards(next)))];
      }
      assert Model() == Apply(before, Set(id));
      LeadsStep(Step, start, before, Model());
    }

    /** One compare-and-delete. */
    method DeleteKey(id: nat, shard: nat, ghost start: State)
      requires id < |seeders| && IsDeleting(seeders[id].phase) && shard in seeders[id].phase.left && shard < |keys|
      requires Leads(Step, start, Model())
      modifies this`keys, this`seeders
      ensures Leads(Step, start, Model())
      ensures keys == old(keys)[shard := CompareAndDelete(old(keys)[shard], id)]
      ensures |seeders| == |old(seeders)| && IsDeleting(seeders[id].phase)
      ensures var phase := old(seeders)[id].phase;
              seeders == old(seeders)[id := old(seeders)[id].(phase := phase.(left := phase.left - {shard}))]
    {
      ghost var before := Model();
      if keys[shard].Some? && keys[shard].value.token == id {
        keys := keys[shard := None];
      }
      var phase := seeders[id].phase;
      seeders := seeders[id := seeders[id].(phase := phase.(left := phase.left - {shard}))];
      assert Model() == Apply(before, Delete(id, shard));
      LeadsStep(Step, start, before, Model());
    }

    /** Ends a failed acquire or a release. */
    method EndDeletes(id: nat, ghost start: State)
      requires id < |seeders| && IsDeleting(seeders[id].phase) && seeders[id].phase.left == {}
      requires Leads(Step, start, Model())
      modifies this`seeders
      ensures Leads(Step, start, Model())
      ensures |seeders| == |old(seeders)|
      ensures seeders == old(seeders)[id := old(seeders)[id].(phase := if old(seeders)[id].phase.Undoing? then Failed else Released)]
    {
      ghost var before := Model();
      seeders := seeders[id := seeders[id].(phase := if seeders[id].phase.Undoing? then Failed else Released)];
      assert Model() == Apply(before, Close(id));
      LeadsStep(Step, start, before, Model());
    }

    /** The compare-and-deletes of a failed acquire or of a release: no key of the seeder is left, other keys stay. */
    method DeleteKeys(id: nat)
      requires Inv(Model()) && id < |seeders| && IsDeleting(seeders[id].phase) && seeders[id].lost == {}
      requires exists m: nat :: m <= |keys| && seeders[id].phase.left == Shards(m)
      modifies this
      ensures Inv(Model()) && Leads(Step, old(Model()), Model())
      ensures now == old(now) && fences == old(fences) && |keys| == |old(keys)|
      ensures forall k :: 0 <= k < |keys| ==> !Owns(Model(), id, k)
      ensures forall k :: 0 <= k < |keys| ==> keys[k] == CompareAndDelete(old(keys)[k], id)
      ensures |seeders| == |old(seeders)| && seeders[id].phase == if old(seeders)[id].phase.Undoing? then Failed else Released
    {
      ghost var start := Model();
      ghost var m: nat :| m <= |keys| && seeders[id].phase.left == Shards(m);
      LeadsNowhere(Step, start);
      var phase := seeders[id].phase;
      assert SeederFine(start, id, seeders[id]);
      for k := 0 to |keys|
        invariant |keys| == |start.keys| && now == start.now && fences == start.fences
        invariant Leads(Step, start, Model())
        invariant |seeders| == |start.seeders| && seeders[id].lost == {} && IsDeleting(seeders[id].phase)
        invariant seeders[id].phase.Undoing? <==> phase.Undoing?
        invariant forall j: nat :: j in seeders[id].phase.left <==> k <= j < m
        invariant forall j :: k <= j < |keys| ==> keys[j] == start.keys[j]
        invariant forall j :: 0 <= j < k ==> keys[j] == CompareAndDelete(start.keys[j], id)
      {
        if k in phase.left {
          DeleteKey(id, k, start);
        } else {
          assert !Owns(start, id, k);
        }
      }
      assert seeders[id].phase.left == {};
      EndDeletes(id, start);
      LeadsInv(start, Model());
    }

    /** The reads of the recovery fences, and what follows from them. */
    method LookAtFences(id: nat) returns (fenced: bool)
      requires id < |seeders| && seeders[id].phase == Checking(Shards(|keys|), false) && |fences| == |keys|
      modifies this`seeders
      ensures Leads(Step, old(Model()), Model())
      ensures fenced <==> exists k :: 0 <= k < |fences| && fences[k]
      ensures seeders == old(seeders)[id := old(seeders)[id].(phase := if fenced then Undoing(Shards(|keys|)) else Holding)]
    {
      ghost var start := Model();
      LeadsNowhere(Step, start);
      fenced := false;
      for k := 0 to |fences|
        invariant |seeders| == |start.seeders| && seeders[id].phase.Checking? && seeders[id].phase.fenced == fenced
        invariant seeders == start.seeders[id := start.seeders[id].(phase := seeders[id].phase)]
        invariant forall j: nat :: j in seeders[id].phase.unseen <==> k <= j < |keys|
        invariant fenced <==> exists j :: 0 <= j < k && fences[j]
        invariant Leads(Step, start, Model())
      {
        ghost var before := Model();
        fenced := fenced || fences[k];
        seeders := seeders[id := seeders[id].(phase := Checking(seeders[id].phase.unseen - {k}, fenced))];
        assert Model() == Apply(before, Look(id, k));
        LeadsStep(Step, start, before, Model());
      }
      assert seeders[id].phase.unseen == {};
      ghost var before := Model();
      seeders := seeders[id := seeders[id].(phase := if fenced then Undoing(Shards(|keys|)) else Holding)];
      assert Model() == Apply(before, Conclude(id));
      LeadsStep(Step, start, before, Model());
    }

    /** The SETs in shard order, up to the first shard whose key is taken. */
    method SetKeys() returns (id: nat, ok: bool)
      requires Inv(Model())
      modifies this`keys, this`seeders
      ensures Leads(Step, old(Model()), Model())
      ensures id == |old(seeders)| && |seeders| == id + 1 && |keys| == |old(keys)| && seeders[id].lost == {}
      ensures ok <==> forall k :: 0 <= k < |keys| ==> !Live(old(keys)[k], now)
      ensures ok ==> seeders[id].phase == Checking(Shards(|keys|), false)
      ensures ok ==> forall k :: 0 <= k < |keys| ==> keys[k] == Some(Key(id, now + TTL_MS))
      ensures !ok ==> exists m: nat :: m <= |keys| && seeders[id].phase == Undoing(Shards(m))
      ensures forall k :: 0 <= k < |keys| ==>
                keys[k] == old(keys)[k] || (keys[k] == Some(Key(id, now + TTL_MS)) && !Live(old(keys)[k], now))
    {
      ghost var start := Model();
      LeadsNowhere(Step, start);
      id, ok := |seeders|, true;
      Enter();
      LeadsStep(Step, start, start, Model());
      var k := 0;
      while k < |keys| && ok
        invariant k <= |keys| == |start.keys| && |seeders| == id + 1 && now == start.now && fences == start.fences
        invariant seeders[id].lost == {}
        invariant ok ==> |seeders[id].setAt| == k
        invariant ok ==> seeders[id].phase == if k == |keys| then Checking(Shards(|keys|), false) else Acquiring
        invariant ok ==> forall j :: 0 <= j < k ==> keys[j] == Some(Key(id, now + TTL_MS)) && !Live(start.keys[j], now)
        invariant ok ==> forall j :: k <= j < |keys| ==> keys[j] == start.keys[j]
        invariant !ok ==> k < |keys| && Live(start.keys[k], now) && seeders[id].phase == Undoing(Shards(k))
        invariant forall j :: 0 <= j < |keys| ==>
                    keys[j] == start.keys[j] || (keys[j] == Some(Key(id, now + TTL_MS)) && !Live(start.keys[j], now))
        invariant Leads(Step, start, Model())
        decreases |keys| - k, ok
      {
        ok := SetKey(id, start);
        if ok {
          k := k + 1;
        }
      }
    }

    /**
     `acquirePlannedBootstrap`: it succeeds iff no shard has a live key or a
     fence; if it fails, no key of its own is left and no live key is changed.
     */
    method AcquirePlannedBootstrap() returns (id: nat, ok: bool)
      requires Inv(Model())
      modifies this
      ensures Inv(Model()) && Leads(Step, old(Model()), Model())
      ensures id == |old(seeders)| < |seeders| && now == old(now) && |keys| == |old(keys)|
      ensures ok <==> forall k :: 0 <= k < |keys| ==> !Live(old(keys)[k], now) && !old(fences)[k]
      ensures ok ==> seeders[id].phase == Holding && forall k :: 0 <= k < |keys| ==> keys[k] == Some(Key(id, now + TTL_MS))
      ensures !ok ==> seeders[id].phase == Failed
      ensures !ok ==> forall k :: 0 <= k < |keys| ==> !Owns(Model(), id, k) && (Live(old(keys)[k], now) ==> keys[k] == old(keys)[k])
    {
      ghost var start := Model();
      ghost var middle;
      id, ok := SetKeys();
      middle := Model();
      LeadsInv(start, middle);
      if ok {
        var fenced := LookAtFences(id);
        ok := !fenced;
        LeadsTransitive(Step, start, middle, Model());
        middle := Model();
        LeadsInv(start, middle);
      }
      if !ok {
        DeleteKeys(id);
        LeadsTransitive(Step, start, middle, Model());
      }
    }

    /** `releasePlannedBootstrap`. */
    method ReleasePlannedBootstrap(id: nat)
      requires Inv(Model()) && id < |seeders| && seeders[id].phase == Holding && seeders[id].lost == {}
      modifies this
      ensures Inv(Model()) && Leads(Step, old(Model()), Model())
      ensures |seeders| == |old(seeders)| && seeders[id].phase == Released && |keys| == |old(keys)|
      ensures forall k :: 0 <= k < |keys| ==> !Owns(Model(), id, k)
      ensures forall k :: 0 <= k < |keys| ==> keys[k] == CompareAndDelete(old(keys)[k], id)
    {
      ghost var start := Model();
      seeders := seeders[id := seeders[id].(phase := Releasing(Shards(|keys|)))];
      ghost var middle := Model();
      assert middle == Apply(start, Finish(id));
      LeadsNowhere(Step, start);
      LeadsStep(Step, start, start, middle);
      LeadsInv(start, middle);
      DeleteKeys(id);
      LeadsTransitive(Step, start, middle, Model());
    }
  }
}
