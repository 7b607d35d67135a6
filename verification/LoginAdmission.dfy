/** Login admission (security/admission.go:47-211): per-client buckets of recent failures and running attempts,
    pruned and evicted under a bound while attempts hold on to them. */
module LoginAdmission {
  import opened Wrappers

  type Key = nat        // client address and user name
  type BucketId = nat   // the address of a bucket
  type AttemptId = nat
  type Time = int       // milliseconds

  const WINDOW: Time := 900_000
  const LIMIT: nat := 5
  const MAX_BUCKETS: nat := 4096

  datatype Bucket = Bucket(failures: seq<Time>, lockedTo: Option<Time>, lastSeen: Time, inFlight: int)

  datatype Attempt = Attempt(key: Key, bucket: BucketId, finished: bool)

  datatype State = State(
    items: map<Key, BucketId>, buckets: map<BucketId, Bucket>, attempts: map<AttemptId, Attempt>, next: BucketId)

  // ---------------------------------------------------------------- one bucket

  function Recent(failures: seq<Time>, now: Time): (r: seq<Time>)
    ensures |r| <= |failures| && forall t :: t in r ==> t > now - WINDOW && t in failures
  {
    if failures == [] then []
    else
      var kept := Recent(failures[..|failures| - 1], now);
      if failures[|failures| - 1] > now - WINDOW then kept + [failures[|failures| - 1]] else kept
  }

  function Pruned(b: Bucket, now: Time): Bucket { b.(failures := Recent(b.failures, now)) }

  predicate LockedAt(b: Bucket, now: Time) { b.lockedTo.Some? && b.lockedTo.value > now }

  /** Whether a pruned bucket takes another attempt. */
  predicate Admits(b: Bucket, now: Time) { !LockedAt(b, now) && |b.failures| + b.inFlight < LIMIT }

  function Recorded(b: Bucket, success: bool, now: Time): Bucket {
    if success then b.(lastSeen := now, failures := [], lockedTo := None)
    else
      var failures := Recent(b.failures, now) + [now];
      b.(lastSeen := now, failures := failures,
         lockedTo := if |failures| >= LIMIT then Some(now + WINDOW) else b.lockedTo)
  }

  predicate Idle(b: Bucket, now: Time) { b.inFlight == 0 && !LockedAt(b, now) && b.failures == [] }

  // ---------------------------------------------------------------- making room

  predicate Tabled(s: State, id: BucketId) { exists k :: k in s.items && s.items[k] == id }

  function PruneAll(s: State, now: Time): State {
    var buckets := map id | id in s.buckets :: if Tabled(s, id) then Pruned(s.buckets[id], now) else s.buckets[id];
    s.(buckets := buckets,
       items := map k | k in s.items && !(s.items[k] in buckets && Idle(buckets[s.items[k]], now)) :: s.items[k])
  }

  predicate Evictable(s: State, k: Key) { k in s.items && s.items[k] in s.buckets && s.buckets[s.items[k]].inFlight == 0 }

  /** The key of an evictable bucket that was seen longest ago. */
  ghost predicate Oldest(s: State, k: Key) {
    Evictable(s, k) && forall j :: Evictable(s, j) ==> s.buckets[s.items[k]].lastSeen <= s.buckets[s.items[j]].lastSeen
  }

  /** A new empty bucket under the key. */
  function Inserted(s: State, key: Key, now: Time): State {
    s.(items := s.items[key := s.next], buckets := s.buckets[s.next := Bucket([], None, now, 0)], next := s.next + 1)
  }

  ghost predicate NoneEvictable(s: State) { forall k :: !Evictable(s, k) }

  /** A full table is pruned before a new bucket is made. */
  function Thinned(s: State, now: Time): State { if |s.items| >= MAX_BUCKETS then PruneAll(s, now) else s }

  /** Making a bucket; `victim` is the key that has to go if pruning does not help. */
  function MakeStep(s: State, key: Key, now: Time, victim: Option<Key>): (State, Option<BucketId>) {
    var s1 := Thinned(s, now);
    var s2 := if |s1.items| >= MAX_BUCKETS && victim.Some? then s1.(items := s1.items - {victim.value}) else s1;
    if |s2.items| >= MAX_BUCKETS then (s2, None)
    else (Inserted(s2, key, now), Some(s2.next))
  }

  /** The victim is the oldest evictable bucket, when one is needed and there is one. */
  ghost predicate RightVictim(s: State, now: Time, victim: Option<Key>) {
    var s1 := Thinned(s, now);
    |s1.items| >= MAX_BUCKETS ==> if victim.Some? then Oldest(s1, victim.value) else NoneEvictable(s1)
  }

  // ---------------------------------------------------------------- the operations

  /** Takes a place in a bucket for a new attempt. */
  function Join(s: State, key: Key, id: BucketId, attempt: AttemptId, now: Time): State
    requires id in s.buckets
  {
    s.(buckets := s.buckets[id := s.buckets[id].(inFlight := s.buckets[id].inFlight + 1, lastSeen := now)],
       attempts := s.attempts[attempt := Attempt(key, id, false)])
  }

  function BeginStep(s: State, key: Key, attempt: AttemptId, now: Time, victim: Option<Key>): (State, bool) {
    if key in s.items && s.items[key] in s.buckets then
      var id := s.items[key];
      var s1 := s.(buckets := s.buckets[id := Pruned(s.buckets[id], now)]);
      if !Admits(s1.buckets[id], now) then (s1, false) else (Join(s1, key, id, attempt, now), true)
    else
      var (s1, made) := MakeStep(s, key, now, victim);
      match made
      case None => (s1, false)
      case Some(id) => if id in s1.buckets then (Join(s1, key, id, attempt, now), true) else (s1, false)
  }

  /** Finish with a result, or Cancel without one; only the first call counts. */
  function FinishStep(s: State, attempt: AttemptId, result: Option<bool>, now: Time): State {
    if attempt !in s.attempts || s.attempts[attempt].finished || s.attempts[attempt].bucket !in s.buckets then s
    else
      var a := s.attempts[attempt];
      var b := s.buckets[a.bucket].(inFlight := s.buckets[a.bucket].inFlight - 1);
      var b1 := if result.Some? then Recorded(b, result.value, now) else b;
      s.(buckets := s.buckets[a.bucket := b1],
         attempts := s.attempts[attempt := a.(finished := true)],
         items := if b1.inFlight == 0 && b1.failures == [] then s.items - {a.key} else s.items)
  }

  /** Asking whether a login would be allowed prunes the bucket it looks at. */
  function AskStep(s: State, key: Key, now: Time): (State, bool) {
    if key in s.items && s.items[key] in s.buckets then
      var id := s.items[key];
      var s1 := s.(buckets := s.buckets[id := Pruned(s.buckets[id], now)]);
      (s1, Admits(s1.buckets[id], now))
    else (s, true)
  }

  datatype Event =
    | Begin(key: Key, attempt: AttemptId, now: Time, victim: Option<Key>)
    | Finish(attempt: AttemptId, success: bool, now: Time)
    | Cancel(attempt: AttemptId, now: Time)
    | Ask(key: Key, now: Time)

  ghost predicate Allowed(s: State, ev: Event) {
    ev.Begin? ==> ev.attempt !in s.attempts && (ev.key !in s.items ==> RightVictim(s, ev.now, ev.victim))
  }

  function Apply(s: State, ev: Event): State {
    match ev
    case Begin(key, attempt, now, victim) => BeginStep(s, key, attempt, now, victim).0
    case Finish(attempt, success, now) => FinishStep(s, attempt, Some(success), now)
    case Cancel(attempt, now) => FinishStep(s, attempt, None, now)
    case Ask(key, now) => AskStep(s, key, now).0
  }

  function Run(s: State, events: seq<Event>): State {
    if events == [] then s else Apply(Run(s, events[..|events| - 1]), events[|events| - 1])
  }

  ghost predicate Legal(s: State, events: seq<Event>) {
    forall i :: 0 <= i < |events| ==> Allowed(Run(s, events[..i]), events[i])
  }

  // ---------------------------------------------------------------- the invariant

  predicate RunsIn(a: Attempt, id: BucketId) { !a.finished && a.bucket == id }

  function Running(attempts: map<AttemptId, Attempt>, id: BucketId): set<AttemptId> {
    set a | a in attempts && RunsIn(attempts[a], id)
  }

  /** The bucket of an unfinished attempt is the one in the table under its key. */
  ghost predicate Attached(s: State) {
    forall a :: a in s.attempts && !s.attempts[a].finished ==>
      s.attempts[a].key in s.items && s.items[s.attempts[a].key] == s.attempts[a].bucket
  }

  /** Tabled buckets exist, are distinct, count their running attempts, and stay within the limit. */
  ghost predicate Counted(s: State) {
    && (forall k :: k in s.items ==> BucketSound(s, s.items[k]))
    && (forall j, k :: j in s.items && k in s.items && j != k ==> s.items[j] != s.items[k])
  }

  ghost predicate BucketSound(s: State, id: BucketId) {
    && id in s.buckets && id < s.next
    && s.buckets[id].inFlight == |Running(s.attempts, id)|
    && |s.buckets[id].failures| + s.buckets[id].inFlight <= LIMIT
  }

  ghost predicate Inv(s: State) { Attached(s) && Counted(s) && |s.items| <= MAX_BUCKETS }

  lemma {:induction false} RecentLimit(b: Bucket, success: bool, now: Time)
    requires |b.failures| + b.inFlight < LIMIT
    ensures |Recorded(b, success, now).failures| + b.inFlight <= LIMIT
  {
  }

  lemma {:induction false} RunningAfterStart(attempts: map<AttemptId, Attempt>, a: AttemptId, key: Key, id: BucketId, other: BucketId)
    requires a !in attempts
    ensures |Running(attempts[a := Attempt(key, id, false)], other)| == |Running(attempts, other)| + (if id == other then 1 else 0)
  {
    var after := attempts[a := Attempt(key, id, false)];
    if id == other {
      assert Running(after, other) == Running(attempts, other) + {a};
    } else {
      assert Running(after, other) == Running(attempts, other);
    }
  }

  lemma {:induction false} RunningAfterEnd(attempts: map<AttemptId, Attempt>, a: AttemptId, other: BucketId)
    requires a in attempts && !attempts[a].finished
    ensures var after := attempts[a := attempts[a].(finished := true)];
      |Running(after, other)| == |Running(attempts, other)| - (if attempts[a].bucket == other then 1 else 0)
  {
    var after := attempts[a := attempts[a].(finished := true)];
    if attempts[a].bucket == other {
      assert Running(after, other) == Running(attempts, other) - {a};
      assert a in Running(attempts, other);
    } else {
      assert Running(after, other) == Running(attempts, other);
    }
  }

  lemma {:induction false} NobodyRuns(s: State, id: BucketId, key: Key)
    requires Running(s.attempts, id) == {}
    ensures forall a :: a in s.attempts && !s.attempts[a].finished ==> s.attempts[a].bucket != id
  {
    forall a | a in s.attempts && !s.attempts[a].finished ensures s.attempts[a].bucket != id {
      assert a !in Running(s.attempts, id);
    }
  }

  /** Shrinking the table and its failures, with every bucket that has a running attempt left in. */
  lemma {:induction false} ShrinkKeepsInv(s: State, t: State)
    requires Inv(s) && t.attempts == s.attempts && t.next == s.next && t.buckets.Keys == s.buckets.Keys
    requires forall k :: k in t.items ==> k in s.items && t.items[k] == s.items[k]
    requires forall k :: k in s.items && k !in t.items ==> s.buckets[s.items[k]].inFlight == 0
    requires forall id :: id in s.buckets ==>
      t.buckets[id].inFlight == s.buckets[id].inFlight && |t.buckets[id].failures| <= |s.buckets[id].failures|
    ensures Inv(t)
  {
    hide Running;
    forall k | k in t.items ensures BucketSound(t, t.items[k]) {
      assert BucketSound(s, s.items[k]);
    }
    assert t.items.Keys <= s.items.Keys;
    FewerKeys(t.items.Keys, s.items.Keys);
    forall a | a in t.attempts && !t.attempts[a].finished ensures t.attempts[a].key in t.items {
      var k := s.attempts[a].key;
      assert BucketSound(s, s.items[k]);
      StillRunning(s, a);
    }
  }

  lemma {:induction false} StillRunning(s: State, a: AttemptId)
    requires a in s.attempts && !s.attempts[a].finished
    ensures |Running(s.attempts, s.attempts[a].bucket)| > 0
  {
    assert a in Running(s.attempts, s.attempts[a].bucket);
  }

  lemma {:induction false} FewerKeys(a: set<Key>, b: set<Key>)
    requires a <= b
    ensures |a| <= |b|
  {
    var rest := b - a;
    assert b == a + rest;
  }

  lemma {:induction false} PruneKeepsInv(s: State, now: Time)
    requires Inv(s)
    ensures Inv(PruneAll(s, now))
  {
    hide Running, Attached;
    forall k | k in s.items ensures s.items[k] in s.buckets { assert BucketSound(s, s.items[k]); }
    hide Counted;
    ShrinkKeepsInv(s, PruneAll(s, now));
  }

  lemma {:induction false} EvictKeepsInv(s: State, victim: Key)
    requires Inv(s) && Evictable(s, victim)
    ensures Inv(s.(items := s.items - {victim})) && |(s.items - {victim})| < |s.items|
  {
    hide Running, Attached, Counted;
    assert s.items.Keys == (s.items - {victim}).Keys + {victim};
    ShrinkKeepsInv(s, s.(items := s.items - {victim}));
  }

  lemma {:induction false} PruneBucketKeepsInv(s: State, id: BucketId, now: Time)
    requires Inv(s) && id in s.buckets
    ensures Inv(s.(buckets := s.buckets[id := Pruned(s.buckets[id], now)]))
  {
    hide Running, Attached, Counted;
    ShrinkKeepsInv(s, s.(buckets := s.buckets[id := Pruned(s.buckets[id], now)]));
  }

  /** An attempt enters a tabled bucket that has room. */
  lemma {:induction false} JoinKeepsInv(s: State, key: Key, id: BucketId, attempt: AttemptId, now: Time)
    requires Inv(s) && key in s.items && s.items[key] == id && attempt !in s.attempts
    requires BucketSound(s, id) && |s.buckets[id].failures| + s.buckets[id].inFlight < LIMIT
    ensures Inv(Join(s, key, id, attempt, now))
  {
    hide Running;
    var t := Join(s, key, id, attempt, now);
    forall k | k in t.items ensures BucketSound(t, t.items[k]) {
      assert BucketSound(s, s.items[k]);
      RunningAfterStart(s.attempts, attempt, key, id, s.items[k]);
    }
  }

  /** A fresh bucket enters the table; nobody can be running in it. */
  lemma {:induction false} InsertKeepsInv(s: State, key: Key, now: Time)
    requires Inv(s) && |s.items| < MAX_BUCKETS && key !in s.items
    ensures Inv(Inserted(s, key, now)) && BucketSound(Inserted(s, key, now), s.next)
  {
    FreshIsEmpty(s);
    hide Running, BucketSound;
    InsertKeepsCounted(s, key, now);
    hide Counted;
    GrowsByOne(s.items, key, s.next);
  }

  lemma {:induction false} GrowsByOne(items: map<Key, BucketId>, key: Key, id: BucketId)
    requires key !in items
    ensures |items[key := id]| == |items| + 1
  {
    assert items[key := id].Keys == items.Keys + {key};
  }

  lemma {:induction false} InsertKeepsCounted(s: State, key: Key, now: Time)
    requires Counted(s) && key !in s.items && Running(s.attempts, s.next) == {}
    ensures Counted(Inserted(s, key, now)) && BucketSound(Inserted(s, key, now), s.next)
  {
    hide Running;
    var t := Inserted(s, key, now);
    forall k | k in s.items ensures BucketSound(t, s.items[k]) && s.items[k] < s.next {
      assert BucketSound(s, s.items[k]);
    }
  }

  lemma {:induction false} FreshIsEmpty(s: State)
    requires Attached(s) && Counted(s)
    ensures Running(s.attempts, s.next) == {}
  {
    forall a | a in s.attempts ensures !RunsIn(s.attempts[a], s.next) {
      if !s.attempts[a].finished { assert BucketSound(s, s.items[s.attempts[a].key]); }
    }
  }

  ghost predicate AllBusy(s: State) {
    forall k :: k in s.items ==> s.items[k] in s.buckets && s.buckets[s.items[k]].inFlight > 0
  }

  /** Making a bucket fails only when every bucket of a full table has a running attempt. */
  lemma {:induction false} MakeKeepsInv(s: State, key: Key, now: Time, victim: Option<Key>)
    requires Inv(s) && key !in s.items && RightVictim(s, now, victim)
    ensures var (t, made) := MakeStep(s, key, now, victim);
      Inv(t) && t.attempts == s.attempts
      && (made.Some? ==> key in t.items && t.items[key] == made.value && BucketSound(t, made.value)
                         && t.buckets[made.value] == Bucket([], None, now, 0))
      && (made.None? ==> AllBusy(t) && |t.items| == MAX_BUCKETS)
  {
    hide Inv, BucketSound, Thinned, Oldest, NoneEvictable, AllBusy;
    var s1 := Thinned(s, now);
    ThinnedKeepsInv(s, now);
    InvBound(s1);
    if |s1.items| >= MAX_BUCKETS {
      if victim.Some? {
        OldestIsEvictable(s1, victim.value);
        EvictKeepsInv(s1, victim.value);
      } else {
        NoneMeansBusy(s1);
      }
    }
    var s2 := if |s1.items| >= MAX_BUCKETS && victim.Some? then s1.(items := s1.items - {victim.value}) else s1;
    if |s2.items| < MAX_BUCKETS { InsertKeepsInv(s2, key, now); }
  }

  lemma {:induction false} ThinnedKeepsInv(s: State, now: Time)
    requires Inv(s)
    ensures Inv(Thinned(s, now)) && Thinned(s, now).attempts == s.attempts
    ensures forall k :: k in Thinned(s, now).items ==> k in s.items
  {
    hide Inv, PruneAll;
    PruneKeepsInv(s, now);
    PruneShrinks(s, now);
  }

  lemma {:induction false} OldestIsEvictable(s: State, k: Key)
    requires Oldest(s, k)
    ensures Evictable(s, k)
  {
  }

  lemma {:induction false} PruneShrinks(s: State, now: Time)
    ensures forall k :: k in PruneAll(s, now).items ==> k in s.items
    ensures PruneAll(s, now).attempts == s.attempts
  {
  }

  lemma {:induction false} InvBound(s: State)
    requires Inv(s)
    ensures |s.items| <= MAX_BUCKETS
  {
  }

  lemma {:induction false} NoneMeansBusy(s: State)
    requires Inv(s) && NoneEvictable(s)
    ensures AllBusy(s)
  {
    hide Running;
    forall k | k in s.items ensures s.items[k] in s.buckets && s.buckets[s.items[k]].inFlight > 0 {
      assert BucketSound(s, s.items[k]) && !Evictable(s, k);
    }
  }

  lemma {:induction false} BeginKeepsInv(s: State, key: Key, attempt: AttemptId, now: Time, victim: Option<Key>)
    requires Inv(s) && attempt !in s.attempts && (key !in s.items ==> RightVictim(s, now, victim))
    ensures Inv(BeginStep(s, key, attempt, now, victim).0)
  {
    hide Inv, Running, MakeStep, RightVictim, Join;
    if key in s.items {
      TabledIsSound(s, key);
      var id := s.items[key];
      var s1 := s.(buckets := s.buckets[id := Pruned(s.buckets[id], now)]);
      PruneBucketKeepsInv(s, id, now);
      TabledIsSound(s1, key);
      if Admits(s1.buckets[id], now) { JoinKeepsInv(s1, key, id, attempt, now); }
    } else {
      MakeKeepsInv(s, key, now, victim);
      var (s1, made) := MakeStep(s, key, now, victim);
      if made.Some? { JoinKeepsInv(s1, key, made.value, attempt, now); }
    }
  }

  lemma {:induction false} TabledIsSound(s: State, key: Key)
    requires Inv(s) && key in s.items
    ensures BucketSound(s, s.items[key])
  {
  }

  lemma {:induction false} FinishKeepsInv(s: State, attempt: AttemptId, result: Option<bool>, now: Time)
    requires Inv(s)
    ensures Inv(FinishStep(s, attempt, result, now))
  {
    var t := FinishStep(s, attempt, result, now);
    if t != s {
      var a := s.attempts[attempt];
      TabledIsSound(s, a.key);
      StillRunning(s, attempt);
      hide Running, Recorded;
      EndKeepsBuckets(s, t, attempt, result, now);
      EndKeepsAttached(s, t, attempt, result, now);
      assert t.items.Keys <= s.items.Keys;
      FewerKeys(t.items.Keys, s.items.Keys);
    }
  }

  lemma {:induction false} EndKeepsBuckets(s: State, t: State, attempt: AttemptId, result: Option<bool>, now: Time)
    requires Inv(s) && t == FinishStep(s, attempt, result, now) && t != s
    ensures Counted(t)
  {
    hide Running, Recorded;
    var a := s.attempts[attempt];
    var b := s.buckets[a.bucket].(inFlight := s.buckets[a.bucket].inFlight - 1);
    TabledIsSound(s, a.key);
    if result.Some? { RecentLimit(b, result.value, now); RecordedKeeps(b, result.value, now); }
    forall k | k in t.items ensures BucketSound(t, t.items[k]) {
      assert BucketSound(s, s.items[k]);
      RunningAfterEnd(s.attempts, attempt, s.items[k]);
    }
  }

  lemma {:induction false} RecordedKeeps(b: Bucket, success: bool, now: Time)
    ensures Recorded(b, success, now).inFlight == b.inFlight
  {
  }

  lemma {:induction false} EndKeepsAttached(s: State, t: State, attempt: AttemptId, result: Option<bool>, now: Time)
    requires Inv(s) && t == FinishStep(s, attempt, result, now) && t != s
    ensures Attached(t)
  {
    hide Running, Recorded;
    var a := s.attempts[attempt];
    var b := s.buckets[a.bucket].(inFlight := s.buckets[a.bucket].inFlight - 1);
    TabledIsSound(s, a.key);
    RunningAfterEnd(s.attempts, attempt, a.bucket);
    if result.Some? { RecordedKeeps(b, result.value, now); }
    if t.items != s.items {
      NobodyRuns(t, a.bucket, a.key);
    }
  }

  lemma {:induction false} AskKeepsInv(s: State, key: Key, now: Time)
    requires Inv(s)
    ensures Inv(AskStep(s, key, now).0)
  {
    if key in s.items {
      TabledIsSound(s, key);
      PruneBucketKeepsInv(s, s.items[key], now);
    }
  }

  lemma {:induction false} ApplyKeepsInv(s: State, ev: Event)
    requires Inv(s) && Allowed(s, ev)
    ensures Inv(Apply(s, ev))
  {
    hide Inv, BeginStep, FinishStep, AskStep, RightVictim;
    match ev
    case Begin(key, attempt, now, victim) => BeginKeepsInv(s, key, attempt, now, victim);
    case Finish(attempt, success, now) => FinishKeepsInv(s, attempt, Some(success), now);
    case Cancel(attempt, now) => FinishKeepsInv(s, attempt, None, now);
    case Ask(key, now) => AskKeepsInv(s, key, now);
  }

  /** Under Begin, Finish, Cancel and Ask in any order, no bucket holds more than five failures and running attempts
      together, every unfinished attempt's bucket is the one in the table under its key despite pruning and
      eviction, and the table never exceeds its bound. */
  lemma {:induction false} RunKeepsInv(s: State, events: seq<Event>)
    requires Inv(s) && Legal(s, events)
    ensures Inv(Run(s, events))
  {
    hide Inv, Apply, Allowed;
    if events == [] {
    } else {
      var front := events[..|events| - 1];
      forall i | 0 <= i < |front| ensures Allowed(Run(s, front[..i]), front[i]) {
        assert front[..i] == events[..i] && front[i] == events[i];
      }
      RunKeepsInv(s, front);
      ApplyKeepsInv(Run(s, front), events[|events| - 1]);
    }
  }

  const EMPTY: State := State(map[], map[], map[], 0)

  lemma {:induction false} EmptyInv()
    ensures Inv(EMPTY)
  {
  }

  function RunningFor(attempts: map<AttemptId, Attempt>, key: Key): set<AttemptId> {
    set a | a in attempts && attempts[a].key == key && !attempts[a].finished
  }

  /** In particular from the empty table a process starts with: five attempts at most for each client at a time. */
  lemma {:induction false} FiveAtATime(events: seq<Event>, key: Key)
    requires Legal(EMPTY, events)
    ensures var s := Run(EMPTY, events); |s.items| <= MAX_BUCKETS && |RunningFor(s.attempts, key)| <= LIMIT
  {
    hide Run, Legal;
    EmptyInv();
    RunKeepsInv(EMPTY, events);
    AttemptsShareBucket(Run(EMPTY, events), key);
  }

  lemma {:induction false} AttemptsShareBucket(s: State, key: Key)
    requires Inv(s)
    ensures |RunningFor(s.attempts, key)| <= LIMIT
  {
    var mine := RunningFor(s.attempts, key);
    if key in s.items {
      TabledIsSound(s, key);
      assert mine <= Running(s.attempts, s.items[key]);
      FewerKeys(mine, Running(s.attempts, s.items[key]));
    } else {
      assert mine == {};
    }
  }

  // ---------------------------------------------------------------- a lock holds

  /** The key is locked until `until` at least, by a failure that is still remembered for as long. */
  ghost predicate LockedUntil(s: State, key: Key, until: Time) {
    && key in s.items && s.items[key] in s.buckets
    && var b := s.buckets[s.items[key]];
       b.lockedTo.Some? && b.lockedTo.value >= until && exists t :: t in b.failures && t >= until - WINDOW
  }

  /** The step records a success on the key's bucket. */
  predicate Clears(s: State, ev: Event, key: Key) {
    ev.Finish? && ev.success && ev.attempt in s.attempts && !s.attempts[ev.attempt].finished
    && s.attempts[ev.attempt].key == key
  }

  /** The step evicts the key to make a bucket for another one. */
  predicate Evicts(s: State, ev: Event, key: Key) {
    ev.Begin? && ev.key !in s.items && |Thinned(s, ev.now).items| >= MAX_BUCKETS && ev.victim == Some(key)
  }

  lemma {:induction false} RecentKeeps(failures: seq<Time>, now: Time, t: Time)
    requires t in failures && t > now - WINDOW
    ensures t in Recent(failures, now)
  {
    if failures[|failures| - 1] != t {
      assert t in failures[..|failures| - 1];
      RecentKeeps(failures[..|failures| - 1], now, t);
    }
  }

  lemma {:induction false} PrunedKeepsLock(b: Bucket, now: Time, until: Time)
    requires now < until && b.lockedTo.Some? && b.lockedTo.value >= until
    requires exists t :: t in b.failures && t >= until - WINDOW
    ensures Pruned(b, now).lockedTo == b.lockedTo && exists t :: t in Pruned(b, now).failures && t >= until - WINDOW
    ensures !Idle(Pruned(b, now), now) && !Admits(Pruned(b, now), now)
  {
    var t :| t in b.failures && t >= until - WINDOW;
    RecentKeeps(b.failures, now, t);
  }

  lemma {:induction false} FailureKeepsLock(b: Bucket, now: Time, until: Time)
    requires now < until && b.lockedTo.Some? && b.lockedTo.value >= until && now + WINDOW >= until
    requires exists t :: t in b.failures && t >= until - WINDOW
    ensures var r := Recorded(b, false, now);
      r.lockedTo.Some? && r.lockedTo.value >= until && exists t :: t in r.failures && t >= until - WINDOW
  {
    var t :| t in b.failures && t >= until - WINDOW;
    RecentKeeps(b.failures, now, t);
    assert t in Recorded(b, false, now).failures;
  }

  lemma {:induction false} PruneAllKeepsLock(s: State, key: Key, now: Time, until: Time)
    requires LockedUntil(s, key, until) && now < until
    ensures LockedUntil(PruneAll(s, now), key, until)
  {
    assert Tabled(s, s.items[key]);
    PrunedKeepsLock(s.buckets[s.items[key]], now, until);
  }

  lemma {:induction false} BeginKeepsLock(s: State, ev: Event, key: Key, until: Time)
    requires Inv(s) && LockedUntil(s, key, until) && ev.Begin? && ev.now < until && !Evicts(s, ev, key)
    ensures LockedUntil(Apply(s, ev), key, until)
    ensures ev.key == key ==> !BeginStep(s, key, ev.attempt, ev.now, ev.victim).1
  {
    hide Recent, Running, Idle, PruneAll, MakeStep, BucketSound;
    PrunedKeepsLock(s.buckets[s.items[key]], ev.now, until);
    if ev.key in s.items {
      TabledIsSound(s, ev.key);
      TabledApart(s);
    } else {
      hide Inv;
      MakeKeepsLock(s, ev.key, ev.now, ev.victim, key, until);
    }
  }

  lemma {:induction false} MakeKeepsLock(s: State, made: Key, now: Time, victim: Option<Key>, key: Key, until: Time)
    requires Inv(s) && LockedUntil(s, key, until) && now < until && made !in s.items
    requires |Thinned(s, now).items| >= MAX_BUCKETS ==> victim != Some(key)
    ensures var (t, id) := MakeStep(s, made, now, victim);
      LockedUntil(t, key, until) && (id.Some? ==> t.items[key] != id.value)
  {
    hide Inv, LockedUntil, PruneAll, Inserted;
    PruneAllKeepsLock(s, key, now, until);
    ThinnedKeepsInv(s, now);
    var s1 := Thinned(s, now);
    var s2 := if |s1.items| >= MAX_BUCKETS && victim.Some? then s1.(items := s1.items - {victim.value}) else s1;
    if s2 != s1 { LosingAnotherKeepsLock(s1, victim.value, key, until); }
    SameNext(s, now);
    BelowNext(s1, key, until);
    InsertKeepsLock(s2, made, now, key, until);
  }

  lemma {:induction false} SameNext(s: State, now: Time)
    ensures Thinned(s, now).next == s.next
  {
  }

  lemma {:induction false} BelowNext(s: State, key: Key, until: Time)
    requires Inv(s) && LockedUntil(s, key, until)
    ensures key in s.items && s.items[key] < s.next
  {
    TabledIsSound(s, key);
  }

  lemma {:induction false} LosingAnotherKeepsLock(s: State, other: Key, key: Key, until: Time)
    requires LockedUntil(s, key, until) && other != key
    ensures LockedUntil(s.(items := s.items - {other}), key, until)
  {
  }

  lemma {:induction false} InsertKeepsLock(s: State, made: Key, now: Time, key: Key, until: Time)
    requires LockedUntil(s, key, until) && key in s.items && s.items[key] < s.next && made != key
    ensures var t := Inserted(s, made, now); LockedUntil(t, key, until) && t.items[key] != s.next
  {
  }

  lemma {:induction false} FinishKeepsLock(s: State, ev: Event, key: Key, until: Time)
    requires Inv(s) && LockedUntil(s, key, until) && (ev.Finish? || ev.Cancel?) && !Clears(s, ev, key)
    requires until - WINDOW <= ev.now < until
    ensures LockedUntil(Apply(s, ev), key, until)
  {
    hide Running, Recent;
    if ev.attempt in s.attempts && !s.attempts[ev.attempt].finished {
      var a := s.attempts[ev.attempt];
      TabledApart(s);
      if a.key == key {
        var b := s.buckets[a.bucket].(inFlight := s.buckets[a.bucket].inFlight - 1);
        FailureKeepsLock(b, ev.now, until);
      }
    }
  }

  lemma {:induction false} EvictionDropsLock(s: State, ev: Event, key: Key, until: Time)
    requires Evicts(s, ev, key) && key in s.items
    ensures !LockedUntil(Apply(s, ev), key, until)
  {
    hide Thinned, Pruned;
  }

  lemma {:induction false} SuccessDropsLock(s: State, ev: Event, key: Key, until: Time)
    requires Inv(s) && Clears(s, ev, key)
    ensures !LockedUntil(Apply(s, ev), key, until)
  {
    hide Running, Recent;
  }

  /** Within its window a lock is dropped by a step exactly when the step evicts the key or records a success on it. */
  lemma {:induction false} StepDropsLockExactlyWhen(s: State, ev: Event, key: Key, until: Time)
    requires Inv(s) && LockedUntil(s, key, until) && until - WINDOW <= ev.now < until
    ensures LockedUntil(Apply(s, ev), key, until) <==> !Evicts(s, ev, key) && !Clears(s, ev, key)
  {
    LockedIsTabled(s, key, until);
    if Evicts(s, ev, key) {
      EvictionDropsLock(s, ev, key, until);
    } else if Clears(s, ev, key) {
      SuccessDropsLock(s, ev, key, until);
    } else {
      hide Evicts, Clears;
      match ev
      case Begin(_, _, _, _) => BeginKeepsLock(s, ev, key, until);
      case Finish(_, _, _) => FinishKeepsLock(s, ev, key, until);
      case Cancel(_, _) => FinishKeepsLock(s, ev, key, until);
      case Ask(other, now) => AskKeepsLock(s, other, now, key, until);
    }
  }

  lemma {:induction false} AskKeepsLock(s: State, other: Key, now: Time, key: Key, until: Time)
    requires Inv(s) && LockedUntil(s, key, until) && now < until
    ensures LockedUntil(AskStep(s, other, now).0, key, until)
  {
    hide Running, Recent, Idle;
    PrunedKeepsLock(s.buckets[s.items[key]], now, until);
  }

  lemma {:induction false} LockedIsTabled(s: State, key: Key, until: Time)
    requires LockedUntil(s, key, until)
    ensures key in s.items
  {
  }

  ghost predicate Within(events: seq<Event>, until: Time) {
    forall i :: 0 <= i < |events| ==> until - WINDOW <= events[i].now < until
  }

  ghost predicate AlwaysLocked(s: State, events: seq<Event>, key: Key, until: Time) {
    forall n :: 0 <= n <= |events| ==> LockedUntil(Run(s, events[..n]), key, until)
  }

  ghost predicate NeverDropped(s: State, events: seq<Event>, key: Key) {
    forall i :: 0 <= i < |events| ==>
      !Evicts(Run(s, events[..i]), events[i], key) && !Clears(Run(s, events[..i]), events[i], key)
  }

  lemma {:induction false} RunsSplit(s: State, front: seq<Event>, ev: Event, key: Key, until: Time)
    ensures Legal(s, front + [ev]) <==> Legal(s, front) && Allowed(Run(s, front), ev)
    ensures AlwaysLocked(s, front + [ev], key, until) <==>
            AlwaysLocked(s, front, key, until) && LockedUntil(Apply(Run(s, front), ev), key, until)
    ensures NeverDropped(s, front + [ev], key) <==>
            NeverDropped(s, front, key) && !Evicts(Run(s, front), ev, key) && !Clears(Run(s, front), ev, key)
  {
    hide Apply, Allowed, LockedUntil, Evicts, Clears;
    var events := front + [ev];
    RunLast(s, front, ev);
    hide Run;
    assert forall n :: 0 <= n <= |front| ==> events[..n] == front[..n];
    assert events[..|front|] == front[..|front|] == front && events[..|events|] == events && events[|front|] == ev;
    assert forall i :: 0 <= i < |front| ==> events[i] == front[i] && events[..i] == front[..i];
  }

  lemma {:induction false} RunLast(s: State, front: seq<Event>, ev: Event)
    ensures Run(s, front + [ev]) == Apply(Run(s, front), ev)
  {
    hide Apply;
    assert (front + [ev])[..|front|] == front;
  }

  /** Whatever other logins, prunings and cancellations happen within its window, a key stays locked exactly when it
      is never evicted and none of its running attempts succeeds. */
  lemma {:induction false} LockLastsExactlyWhenKept(s: State, events: seq<Event>, key: Key, until: Time)
    requires Inv(s) && Legal(s, events) && LockedUntil(s, key, until) && Within(events, until)
    ensures AlwaysLocked(s, events, key, until) <==> NeverDropped(s, events, key)
  {
    hide Inv, Apply, Allowed, Evicts, Clears, LockedUntil;
    if events == [] {
    } else {
      var front, ev := events[..|events| - 1], events[|events| - 1];
      assert events == front + [ev] && front[..|front|] == front;
      RunsSplit(s, front, ev, key, until);
      hide Legal, NeverDropped;
      LockLastsExactlyWhenKept(s, front, key, until);
      RunKeepsInv(s, front);
      if AlwaysLocked(s, front, key, until) {
        assert LockedUntil(Run(s, front[..|front|]), key, until);
        StepDropsLockExactlyWhen(Run(s, front), ev, key, until);
      }
    }
  }

  /** What a caller can see beforehand: pruning would leave the table full, and nobody in it without running
      attempts was seen longer ago. */
  ghost predicate MayEvict(s: State, now: Time, key: Key) {
    |Thinned(s, now).items| >= MAX_BUCKETS && Oldest(Thinned(s, now), key)
  }

  /** A login by a key without a bucket can cost another key its lock exactly when that one may be evicted. */
  lemma {:induction false} EvictsExactlyWhenOldest(s: State, other: Key, attempt: AttemptId, now: Time, key: Key)
    requires other !in s.items && attempt !in s.attempts
    ensures MayEvict(s, now, key) <==>
      exists victim :: Allowed(s, Begin(other, attempt, now, victim)) && Evicts(s, Begin(other, attempt, now, victim), key)
  {
    hide Thinned, Oldest, NoneEvictable;
    if MayEvict(s, now, key) {
      var ev := Begin(other, attempt, now, Some(key));
      assert Allowed(s, ev) && Evicts(s, ev, key);
    }
  }

  /** The table has room, or an attempt of the key is running. */
  predicate RoomOrBusy(s: State, key: Key) {
    |s.items| < MAX_BUCKETS || (key in s.items && s.items[key] in s.buckets && s.buckets[s.items[key]].inFlight > 0)
  }

  lemma {:induction false} RoomOrBusyIsSafe(s: State, now: Time, key: Key)
    requires RoomOrBusy(s, key)
    ensures !MayEvict(s, now, key)
  {
    hide PruneAll;
    if |s.items| >= MAX_BUCKETS { BusyIsNotEvicted(s, now, key); }
  }

  lemma {:induction false} BusyIsNotEvicted(s: State, now: Time, key: Key)
    requires key in s.items && s.items[key] in s.buckets && s.buckets[s.items[key]].inFlight > 0
    ensures !Evictable(PruneAll(s, now), key)
  {
    hide Recent;
  }

  /** No step of the run can evict the key, and none of its running attempts succeeds. */
  ghost predicate Undisturbed(s: State, events: seq<Event>, key: Key) {
    forall i :: 0 <= i < |events| ==>
      Spares(Run(s, events[..i]), events[i], key) && !Clears(Run(s, events[..i]), events[i], key)
  }

  ghost predicate Spares(s: State, ev: Event, key: Key) {
    ev.Begin? && ev.key !in s.items ==> !MayEvict(s, ev.now, key)
  }

  /** A locked key admits no attempt before its lock ends, whatever other logins, prunings and cancellations happen
      meanwhile, unless its bucket is the oldest idle one of a full table or one of its running attempts succeeds. */
  lemma {:induction false} LockHolds(
    s: State, events: seq<Event>, key: Key, until: Time, attempt: AttemptId, now: Time, victim: Option<Key>)
    requires Inv(s) && Legal(s, events) && LockedUntil(s, key, until) && Within(events, until) && Undisturbed(s, events, key)
    requires now < until
    ensures LockedUntil(Run(s, events), key, until)
    ensures !BeginStep(Run(s, events), key, attempt, now, victim).1
  {
    forall i | 0 <= i < |events|
      ensures !Evicts(Run(s, events[..i]), events[i], key) && !Clears(Run(s, events[..i]), events[i], key)
    {
      SparedIsNotEvicted(Run(s, events[..i]), events[i], key);
    }
    LockLastsExactlyWhenKept(s, events, key, until);
    RunKeepsInv(s, events);
    assert events[..|events|] == events;
    hide Inv, Run, Legal, Undisturbed, BeginStep, LockedUntil, Apply, NeverDropped, Within;
    var t := Run(s, events);
    LockedIsTabled(t, key, until);
    BeginKeepsLock(t, Begin(key, attempt, now, victim), key, until);
  }

  lemma {:induction false} SparedIsNotEvicted(s: State, ev: Event, key: Key)
    requires Allowed(s, ev) && Spares(s, ev, key)
    ensures !Evicts(s, ev, key)
  {
    hide Thinned, Oldest;
  }

  /** A key whose table has room, or that has an attempt running, whenever somebody else starts one keeps its lock,
      however many clients try and however often the table fills up in between. */
  lemma {:induction false} RoomOrBusyKeepsLock(s: State, events: seq<Event>, key: Key, until: Time)
    requires Inv(s) && Legal(s, events) && LockedUntil(s, key, until) && Within(events, until)
    requires forall i :: 0 <= i < |events| ==>
      (events[i].Begin? ==> RoomOrBusy(Run(s, events[..i]), key)) && !Clears(Run(s, events[..i]), events[i], key)
    ensures Undisturbed(s, events, key) && AlwaysLocked(s, events, key, until)
  {
    hide Inv, LockedUntil, Within, Clears, MayEvict, RoomOrBusy, Evicts, Allowed;
    forall i | 0 <= i < |events|
      ensures Spares(Run(s, events[..i]), events[i], key) && !Evicts(Run(s, events[..i]), events[i], key)
    {
      if events[i].Begin? { RoomOrBusyIsSafe(Run(s, events[..i]), events[i].now, key); }
      SparedIsNotEvicted(Run(s, events[..i]), events[i], key);
    }
    LockLastsExactlyWhenKept(s, events, key, until);
  }

  // ---------------------------------------------------------------- a flood of clients ends a lock

  function Zeros(i: nat): seq<Time> { seq(i, _ => 0) }

  /** A bucket after i failures at time 0. */
  function After(i: nat): Bucket { Bucket(Zeros(i), if i >= LIMIT then Some(WINDOW) else None, 0, 0) }

  /** The bucket of client k, under the same number. */
  function OfClient(k: Key): BucketId { k }

  function FloodedBucket(id: BucketId): Bucket { if id == 0 then After(LIMIT) else After(1) }

  /** Attempts 0 to 4 are client 0's, attempt k + 4 is client k's. */
  function Owned(a: AttemptId): Attempt {
    var k := if a < LIMIT then 0 else a - 4;
    Attempt(k, k, true)
  }

  /** Client 0 is locked by five failures at time 0, and clients 1 to n - 1 have failed once each. */
  function Flooded(n: nat): State {
    State(map k: Key | k < n :: OfClient(k), map id: BucketId | id < n :: FloodedBucket(id),
          map a: AttemptId | a < n + 4 :: Owned(a), n)
  }

  /** One attempt that fails at once. */
  function Fails(key: Key, attempt: AttemptId): seq<Event> {
    [Begin(key, attempt, 0, None), Finish(attempt, false, 0)]
  }

  /** Client 0 after i failures at time 0, and nobody else. */
  function Failed(i: nat): State {
    if i == 0 then EMPTY
    else State(map[0 := 0], map[0 := After(i)], map a: AttemptId | a < i :: Owned(a), 1)
  }

  lemma {:induction false} RunTwo(s: State, a: Event, b: Event)
    requires Allowed(s, a) && Allowed(Apply(s, a), b)
    ensures Run(s, [a, b]) == Apply(Apply(s, a), b) && Legal(s, [a, b])
  {
    hide Apply, Allowed;
    RunLast(s, [], a);
    RunLast(s, [a], b);
    assert [] + [a] == [a] && [a] + [b] == [a, b];
    forall i | 0 <= i < 2 ensures Allowed(Run(s, [a, b][..i]), [a, b][i]) {
      assert [a, b][..i] == if i == 0 then [] else [a];
    }
  }

  lemma {:induction false} RunThen(s: State, a: seq<Event>, b: seq<Event>)
    requires Legal(s, a) && Legal(Run(s, a), b)
    ensures Run(s, a + b) == Run(Run(s, a), b) && Legal(s, a + b)
  {
    hide Apply, Allowed;
    if b == [] {
      assert a + b == a;
    } else {
      var front, last := b[..|b| - 1], b[|b| - 1];
      assert a + b == (a + front) + [last] && b == front + [last];
      LegalSplits(Run(s, a), front, last);
      RunThen(s, a, front);
      LegalSplits(s, a + front, last);
      RunLast(s, a + front, last);
    }
  }

  lemma {:induction false} LegalSplits(s: State, front: seq<Event>, ev: Event)
    ensures Legal(s, front + [ev]) <==> Legal(s, front) && Allowed(Run(s, front), ev)
  {
    RunsSplit(s, front, ev, 0, 0);
  }

  lemma {:induction false} RecentKeepsAll(failures: seq<Time>, now: Time)
    requires forall i :: 0 <= i < |failures| ==> failures[i] > now - WINDOW
    ensures Recent(failures, now) == failures
  {
    if failures == [] {
    } else {
      var front, last := failures[..|failures| - 1], failures[|failures| - 1];
      assert failures == front + [last];
      RecentKeepsAll(front, now);
    }
  }

  lemma {:induction false} OneMoreZero(i: nat)
    ensures Zeros(i) + [0] == Zeros(i + 1)
  {
  }

  /** A failure at time 0 of a key that has a bucket. */
  lemma {:induction false} FailsAgain(s: State, key: Key, attempt: AttemptId, i: nat)
    requires key in s.items && s.items[key] in s.buckets && s.buckets[s.items[key]] == After(i) && i < LIMIT
    requires attempt !in s.attempts
    ensures Legal(s, Fails(key, attempt))
    ensures Run(s, Fails(key, attempt)) ==
      s.(buckets := s.buckets[s.items[key] := After(i + 1)], attempts := s.attempts[attempt := Attempt(key, s.items[key], true)])
  {
    var id := s.items[key];
    BeginsAgain(s, key, attempt, i);
    hide Recent, Zeros, RightVictim, MakeStep, BeginStep;
    var s1 := Apply(s, Begin(key, attempt, 0, None));
    FailsNow(s1, key, attempt, id, i);
    RunTwo(s, Begin(key, attempt, 0, None), Finish(attempt, false, 0));
    hide Apply;
    assert s1.buckets[id := After(i + 1)] == s.buckets[id := After(i + 1)];
    assert s1.attempts[attempt := Attempt(key, id, true)] == s.attempts[attempt := Attempt(key, id, true)];
  }

  lemma {:induction false} BeginsAgain(s: State, key: Key, attempt: AttemptId, i: nat)
    requires key in s.items && s.items[key] in s.buckets && s.buckets[s.items[key]] == After(i) && i < LIMIT
    ensures BeginStep(s, key, attempt, 0, None).0 == Join(s, key, s.items[key], attempt, 0)
  {
    RecentKeepsAll(After(i).failures, 0);
    assert s.buckets[s.items[key] := After(i)] == s.buckets;
    hide Recent, Zeros, MakeStep;
  }

  /** A running attempt fails at time 0. */
  lemma {:induction false} FailsNow(s: State, key: Key, attempt: AttemptId, id: BucketId, i: nat)
    requires attempt in s.attempts && s.attempts[attempt] == Attempt(key, id, false) && id in s.buckets
    requires i < LIMIT && s.buckets[id] == After(i).(inFlight := 1)
    ensures Apply(s, Finish(attempt, false, 0)) ==
      s.(buckets := s.buckets[id := After(i + 1)], attempts := s.attempts[attempt := Attempt(key, id, true)])
  {
    RecentKeepsAll(Zeros(i), 0);
    OneMoreZero(i);
    assert |Zeros(i + 1)| == i + 1;
    hide Recent, Zeros;
  }

  /** A failure at time 0 of a key that has none, with room in the table. */
  lemma {:induction false} FailsFirst(s: State, key: Key, attempt: AttemptId)
    requires key !in s.items && |s.items| < MAX_BUCKETS && attempt !in s.attempts
    ensures Legal(s, Fails(key, attempt))
    ensures Run(s, Fails(key, attempt)) ==
      State(s.items[key := s.next], s.buckets[s.next := After(1)], s.attempts[attempt := Attempt(key, s.next, true)], s.next + 1)
  {
    hide PruneAll, Oldest, NoneEvictable, Recent;
    var s1 := Apply(s, Begin(key, attempt, 0, None));
    assert s1 == Join(Inserted(s, key, 0), key, s.next, attempt, 0);
    assert Zeros(0) == [];
    FailsNow(s1, key, attempt, s.next, 0);
    RunTwo(s, Begin(key, attempt, 0, None), Finish(attempt, false, 0));
    hide Apply;
    assert s1.buckets[s.next := After(1)] == s.buckets[s.next := After(1)];
    assert s1.attempts[attempt := Attempt(key, s.next, true)] == s.attempts[attempt := Attempt(key, s.next, true)];
  }

  lemma {:induction false} FailsOnce(i: nat)
    requires i < LIMIT
    ensures Run(Failed(i), Fails(0, i)) == Failed(i + 1) && Legal(Failed(i), Fails(0, i))
  {
    assert Owned(i) == Attempt(0, 0, true);
    hide After, Run, Legal, Fails, Owned;
    assert Failed(i + 1).attempts == Failed(i).attempts[i := Owned(i)];
    if i == 0 {
      FailsFirst(EMPTY, 0, 0);
    } else {
      FailsAgain(Failed(i), 0, i, i);
    }
  }

  lemma {:induction false} FloodedSize(n: nat)
    ensures |Flooded(n).items| == n
  {
    hide FloodedBucket, Owned;
    if n == 0 {
    } else {
      FloodedSize(n - 1);
      assert Flooded(n).items.Keys == Flooded(n - 1).items.Keys + {n - 1};
    }
  }

  lemma {:induction false} FloodGrows(n: nat)
    requires n > 0
    ensures var s := Flooded(n);
      && n !in s.items && n + 4 !in s.attempts && s.next == n
      && Flooded(n + 1) ==
         State(s.items[n := n], s.buckets[n := After(1)], s.attempts[n + 4 := Attempt(n, n, true)], n + 1)
  {
    assert FloodedBucket(n) == After(1) && Owned(n + 4) == Attempt(n, n, true);
    hide After, FloodedBucket, Owned;
    var s, t := Flooded(n), Flooded(n + 1);
    assert t.items == s.items[n := n];
    assert t.buckets == s.buckets[n := After(1)];
    assert t.attempts == s.attempts[n + 4 := Attempt(n, n, true)];
  }

  lemma {:induction false} OneMoreClient(n: nat)
    requires 1 <= n < MAX_BUCKETS
    ensures Run(Flooded(n), Fails(n, n + 4)) == Flooded(n + 1) && Legal(Flooded(n), Fails(n, n + 4))
  {
    hide *;
    FloodedSize(n);
    FloodGrows(n);
    FailsFirst(Flooded(n), n, n + 4);
  }

  function Failures(i: nat): seq<Event> { if i == 0 then [] else Failures(i - 1) + Fails(0, i - 1) }

  /** Five failures of client 0, then one of each of the clients 1 to n - 1. */
  function Flood(n: nat): seq<Event> {
    if n <= 1 then Failures(LIMIT) else Flood(n - 1) + Fails(n - 1, n + 3)
  }

  lemma {:induction false} FloodReaches(n: nat)
    requires 1 <= n <= MAX_BUCKETS
    ensures Legal(EMPTY, Flood(n)) && Run(EMPTY, Flood(n)) == Flooded(n)
  {
    hide Run, Legal, Fails;
    if n == 1 {
      FailuresReach(LIMIT);
      assert Failed(LIMIT).attempts == Flooded(1).attempts;
    } else {
      FloodReaches(n - 1);
      OneMoreClient(n - 1);
      hide Flooded;
      RunThen(EMPTY, Flood(n - 1), Fails(n - 1, n + 3));
    }
  }

  lemma {:induction false} FailuresReach(i: nat)
    requires i <= LIMIT
    ensures Legal(EMPTY, Failures(i)) && Run(EMPTY, Failures(i)) == Failed(i)
  {
    hide Legal, Fails, Apply;
    if i == 0 {
      NothingIsLegal();
    } else {
      hide Run, Failed;
      FailuresReach(i - 1);
      FailsOnce(i - 1);
      RunThen(EMPTY, Failures(i - 1), Fails(0, i - 1));
    }
  }

  lemma {:induction false} NothingIsLegal()
    ensures Legal(EMPTY, [])
  {
  }

  lemma {:induction false} BusyTableIsNotPruned(s: State, now: Time)
    requires forall id :: id in s.buckets ==> Pruned(s.buckets[id], now) == s.buckets[id] && !Idle(s.buckets[id], now)
    ensures PruneAll(s, now) == s
  {
    hide Pruned, Idle, Tabled;
    var t := PruneAll(s, now);
    assert t.buckets == s.buckets;
    assert t.items == s.items;
  }

  lemma {:induction false} PruningFloodedHelpsNothing(n: nat)
    ensures Thinned(Flooded(n), 1) == Flooded(n)
  {
    forall id ensures Pruned(FloodedBucket(id), 1) == FloodedBucket(id) && !Idle(FloodedBucket(id), 1) {
      StaysBusy(id);
    }
    hide Pruned, Idle, FloodedBucket, PruneAll;
    BusyTableIsNotPruned(Flooded(n), 1);
  }

  lemma {:induction false} StaysBusy(id: BucketId)
    ensures Pruned(FloodedBucket(id), 1) == FloodedBucket(id) && !Idle(FloodedBucket(id), 1)
  {
    RecentKeepsAll(FloodedBucket(id).failures, 1);
    hide Recent;
  }

  lemma {:induction false} OldestClient(n: nat)
    requires n > 0
    ensures Oldest(Flooded(n), 0) && LockedUntil(Flooded(n), 0, WINDOW)
  {
    assert After(LIMIT).failures[0] == 0;
    assert 0 in After(LIMIT).failures;
    hide Zeros, Owned;
  }

  /** The run locks client 0 for a quarter of an hour and fills the table; a millisecond later one login by a new
      client, which then has to evict client 0 or a bucket seen at the same time, can drop the lock. */
  lemma {:induction false} FloodEndsLock()
    ensures var s, ev := Run(EMPTY, Flood(MAX_BUCKETS)), Begin(MAX_BUCKETS, MAX_BUCKETS + 4, 1, Some(0));
      && Legal(EMPTY, Flood(MAX_BUCKETS)) && Allowed(s, ev)
      && LockedUntil(s, 0, WINDOW) && MayEvict(s, 1, 0) && !LockedUntil(Apply(s, ev), 0, WINDOW)
  {
    var s, ev := Flooded(MAX_BUCKETS), Begin(MAX_BUCKETS, MAX_BUCKETS + 4, 1, Some(0));
    FloodReaches(MAX_BUCKETS);
    PruningFloodedHelpsNothing(MAX_BUCKETS);
    FloodedSize(MAX_BUCKETS);
    OldestClient(MAX_BUCKETS);
    assert 0 in s.items && ev.key !in s.items && ev.attempt !in s.attempts;
    hide Run, Legal, Flood, Flooded, Thinned, LockedUntil, Oldest, Apply, NoneEvictable;
    EvictionDropsLock(s, ev, 0, WINDOW);
  }

  /** The fifth remembered failure locks the key for the whole window. */
  lemma {:induction false} FifthFailureLocks(s: State, attempt: AttemptId, now: Time)
    requires Inv(s) && attempt in s.attempts && !s.attempts[attempt].finished
    requires |Recent(s.buckets[s.attempts[attempt].bucket].failures, now)| >= LIMIT - 1
    ensures LockedUntil(FinishStep(s, attempt, Some(false), now), s.attempts[attempt].key, now + WINDOW)
  {
    HeldBucketExists(s, attempt);
    hide Running, Recent;
    var b := s.buckets[s.attempts[attempt].bucket];
    assert now in Recorded(b.(inFlight := b.inFlight - 1), false, now).failures;
  }

  // ---------------------------------------------------------------- the buckets, in place

  class LoginAttempts {
    var items: map<Key, BucketId>
    var buckets: map<BucketId, Bucket>
    var attempts: map<AttemptId, Attempt>
    var next: BucketId

    ghost function Contents(): State
      reads this
    {
      State(items, buckets, attempts, next)
    }

    constructor ()
      ensures Contents() == State(map[], map[], map[], 0) && Inv(Contents())
    {
      items, buckets, attempts, next := map[], map[], map[], 0;
    }

    method PruneBucket(id: BucketId, now: Time)
      requires id in buckets
      modifies this
      ensures Contents() == old(Contents()).(buckets := old(buckets)[id := Pruned(old(buckets)[id], now)])
    {
      var failures := buckets[id].failures;
      var kept: seq<Time> := [];
      for i := 0 to |failures|
        invariant kept == Recent(failures[..i], now) && Contents() == old(Contents())
      {
        assert failures[..i + 1][..i] == failures[..i];
        if failures[i] > now - WINDOW {
          kept := kept + [failures[i]];
        }
      }
      assert failures[..|failures|] == failures;
      buckets := buckets[id := buckets[id].(failures := kept)];
    }

    /** Whether a login would be allowed now, as far as the key's own bucket decides. */
    method Ask(key: Key, now: Time) returns (allowed: bool)
      requires Inv(Contents())
      modifies this
      ensures (Contents(), allowed) == AskStep(old(Contents()), key, now) && Inv(Contents())
    {
      hide Inv, Recent;
      AskKeepsInv(Contents(), key, now);
      if key !in items {
        return true;
      }
      TabledIsSound(Contents(), key);
      PruneBucket(items[key], now);
      return Admits(buckets[items[key]], now);
    }

    /** Prunes every tabled bucket and drops those that are idle afterwards. */
    method PruneAttempts(now: Time)
      requires Inv(Contents())
      modifies this
      ensures Contents() == PruneAll(old(Contents()), now)
    {
      hide Running, Attached, Recent;
      ghost var s := Contents();
      var todo := items.Keys;
      while todo != {}
        invariant attempts == s.attempts && next == s.next && todo <= items.Keys
        invariant PrunedExcept(s, todo, now, items, buckets)
        decreases todo
      {
        var k :| k in todo;
        PruneOneMore(s, todo, now, items, buckets, k);
        PruneBucket(items[k], now);
        if Idle(buckets[items[k]], now) {
          items := items - {k};
        }
        todo := todo - {k};
      }
      AllPruned(s, now, items, buckets);
    }

    method EvictOldest() returns (victim: Option<Key>)
      requires Inv(Contents())
      modifies this
      ensures victim.Some? ==> Oldest(old(Contents()), victim.value)
      ensures victim.None? ==> NoneEvictable(old(Contents()))
      ensures Contents() == if victim.Some? then old(Contents()).(items := old(items) - {victim.value}) else old(Contents())
    {
      hide Running, Attached;
      var todo := items.Keys;
      victim := None;
      while todo != {}
        invariant Contents() == old(Contents()) && todo <= items.Keys
        invariant victim.None? ==> forall j :: Evictable(Contents(), j) ==> j in todo
        invariant victim.Some? ==> Evictable(Contents(), victim.value) && forall j :: Evictable(Contents(), j) && j !in todo ==>
          buckets[items[victim.value]].lastSeen <= buckets[items[j]].lastSeen
        decreases todo
      {
        var k :| k in todo;
        assert BucketSound(Contents(), items[k]);
        todo := todo - {k};
        if buckets[items[k]].inFlight == 0
           && (victim.None? || buckets[items[k]].lastSeen < buckets[items[victim.value]].lastSeen)
        {
          victim := Some(k);
        }
      }
      if victim.Some? {
        items := items - {victim.value};
      }
    }

    method Make(key: Key, now: Time) returns (id: Option<BucketId>, ghost victim: Option<Key>)
      requires Inv(Contents())
      modifies this
      ensures RightVictim(old(Contents()), now, victim)
      ensures (Contents(), id) == MakeStep(old(Contents()), key, now, victim)
    {
      hide Inv, PruneAll;
      ThinnedKeepsInv(Contents(), now);
      victim := None;
      if |items| >= MAX_BUCKETS {
        PruneAttempts(now);
        if |items| >= MAX_BUCKETS {
          var evicted := EvictOldest();
          victim := evicted;
        }
        if |items| >= MAX_BUCKETS {
          return None, victim;
        }
      }
      id := Some(next);
      buckets := buckets[next := Bucket([], None, now, 0)];
      items := items[key := next];
      next := next + 1;
    }

    method Begin(key: Key, attempt: AttemptId, now: Time) returns (admitted: bool, ghost victim: Option<Key>)
      requires Inv(Contents()) && attempt !in attempts
      modifies this
      ensures key !in old(items) ==> RightVictim(old(Contents()), now, victim)
      ensures (Contents(), admitted) == BeginStep(old(Contents()), key, attempt, now, victim)
      ensures Inv(Contents())
    {
      hide Inv, MakeStep, RightVictim;
      victim := None;
      if key in items {
        TabledIsSound(Contents(), key);
        BeginKeepsInv(Contents(), key, attempt, now, victim);
        PruneBucket(items[key], now);
        if !Admits(buckets[items[key]], now) {
          return false, victim;
        }
        JoinBucket(key, items[key], attempt, now);
        return true, victim;
      }
      ghost var s := Contents();
      var made;
      made, victim := Make(key, now);
      BeginKeepsInv(s, key, attempt, now, victim);
      MakeKeepsInv(s, key, now, victim);
      if made.None? {
        return false, victim;
      }
      JoinBucket(key, made.value, attempt, now);
      return true, victim;
    }

    method JoinBucket(key: Key, id: BucketId, attempt: AttemptId, now: Time)
      requires id in buckets
      modifies this
      ensures Contents() == Join(old(Contents()), key, id, attempt, now)
    {
      buckets := buckets[id := buckets[id].(inFlight := buckets[id].inFlight + 1, lastSeen := now)];
      attempts := attempts[attempt := Attempt(key, id, false)];
    }

    /** Finish with a result, or Cancel with none. */
    method Finish(attempt: AttemptId, result: Option<bool>, now: Time)
      requires Inv(Contents()) && attempt in attempts
      modifies this
      ensures Contents() == FinishStep(old(Contents()), attempt, result, now) && Inv(Contents())
    {
      hide Inv, Recorded;
      FinishKeepsInv(Contents(), attempt, result, now);
      var a := attempts[attempt];
      if a.finished {
        return;
      }
      HeldBucketExists(Contents(), attempt);
      var b := buckets[a.bucket];
      b := b.(inFlight := b.inFlight - 1);
      if result.Some? {
        b := Recorded(b, result.value, now);
      }
      buckets := buckets[a.bucket := b];
      attempts := attempts[attempt := a.(finished := true)];
      if b.inFlight == 0 && b.failures == [] {
        items := items - {a.key};
      }
    }
  }

  lemma {:induction false} HeldBucketExists(s: State, attempt: AttemptId)
    requires Inv(s) && attempt in s.attempts && !s.attempts[attempt].finished
    ensures s.attempts[attempt].bucket in s.buckets
  {
    TabledIsSound(s, s.attempts[attempt].key);
  }

  /** The pruning loop with the keys `todo` still to visit. */
  ghost predicate PrunedExcept(s: State, todo: set<Key>, now: Time, items: map<Key, BucketId>, buckets: map<BucketId, Bucket>) {
    && buckets.Keys == s.buckets.Keys && todo <= s.items.Keys
    && (forall k :: k in items ==> k in s.items && items[k] == s.items[k])
    && (forall id :: id in s.buckets && !Tabled(s, id) ==> buckets[id] == s.buckets[id])
    && (forall k :: k in s.items && s.items[k] in s.buckets ==>
          if k in todo then k in items && buckets[s.items[k]] == s.buckets[s.items[k]]
          else buckets[s.items[k]] == Pruned(s.buckets[s.items[k]], now)
               && (k in items <==> !Idle(Pruned(s.buckets[s.items[k]], now), now)))
  }

  lemma {:induction false} PruneOneMore(
    s: State, todo: set<Key>, now: Time, items: map<Key, BucketId>, buckets: map<BucketId, Bucket>, k: Key)
    requires Inv(s) && PrunedExcept(s, todo, now, items, buckets) && k in todo
    ensures k in items && items[k] in buckets && items[k] == s.items[k]
    ensures var b := Pruned(buckets[items[k]], now);
      PrunedExcept(s, todo - {k}, now, if Idle(b, now) then items - {k} else items, buckets[items[k] := b])
  {
    hide Inv, Tabled, Recent, Idle, Pruned;
    TabledBucket(s, k);
    TabledApart(s);
  }

  lemma {:induction false} TabledBucket(s: State, k: Key)
    requires Inv(s) && k in s.items
    ensures s.items[k] in s.buckets && Tabled(s, s.items[k])
  {
    assert BucketSound(s, s.items[k]);
  }

  lemma {:induction false} TabledApart(s: State)
    requires Inv(s)
    ensures forall j, k :: j in s.items && k in s.items && j != k ==> s.items[j] != s.items[k]
  {
  }

  lemma {:induction false} AllPruned(s: State, now: Time, items: map<Key, BucketId>, buckets: map<BucketId, Bucket>)
    requires Inv(s) && PrunedExcept(s, {}, now, items, buckets)
    ensures PruneAll(s, now) == s.(items := items, buckets := buckets)
  {
    hide Running, Attached, Recent, Idle, Pruned;
    forall k | k in s.items ensures s.items[k] in s.buckets { assert BucketSound(s, s.items[k]); }
    var t := PruneAll(s, now);
    forall id | id in s.buckets ensures t.buckets[id] == buckets[id] {
      if Tabled(s, id) { var k :| k in s.items && s.items[k] == id; }
    }
    assert t.buckets == buckets;
    forall k ensures k in t.items <==> k in items {
      if k in s.items { assert Tabled(s, s.items[k]); }
    }
    assert t.items == items;
  }
}
