/** What one login operation of `LoginAdmission` does: who is admitted, what is remembered afterwards, and which
    buckets a full table gives up. */
module LoginEffects {
  import opened Wrappers
  import opened LoginAdmission

  /** How many failures the window still covers. */
  function CountSince(failures: seq<Time>, cutoff: Time): nat {
    if failures == [] then 0 else (if failures[0] > cutoff then 1 else 0) + CountSince(failures[1..], cutoff)
  }

  lemma {:induction false} CountLast(failures: seq<Time>, cutoff: Time)
    requires failures != []
    ensures var n := |failures| - 1;
      CountSince(failures, cutoff) == CountSince(failures[..n], cutoff) + (if failures[n] > cutoff then 1 else 0)
    decreases |failures|
  {
    if |failures| == 1 {
    } else {
      CountLast(failures[1..], cutoff);
      assert failures[..|failures| - 1][1..] == failures[1..][..|failures| - 2];
    }
  }

  /** Pruning keeps every failure inside the window as often as it was recorded, and none outside. */
  lemma {:induction false} PruningKeepsExactlyTheWindow(failures: seq<Time>, now: Time)
    ensures |Recent(failures, now)| == CountSince(failures, now - WINDOW)
    ensures forall t :: multiset(Recent(failures, now))[t] == if t > now - WINDOW then multiset(failures)[t] else 0
    decreases |failures|
  {
    if failures == [] {
    } else {
      var n := |failures| - 1;
      PruningKeepsExactlyTheWindow(failures[..n], now);
      CountLast(failures, now - WINDOW);
      assert failures == failures[..n] + [failures[n]];
    }
  }

  function CountOf(s: State, key: Key, now: Time): nat
    requires key in s.items && s.items[key] in s.buckets
  {
    CountSince(s.buckets[s.items[key]].failures, now - WINDOW)
  }

  lemma {:induction false} RunningIsRunningFor(s: State, key: Key)
    requires Inv(s) && key in s.items
    ensures s.items[key] in s.buckets && s.buckets[s.items[key]].inFlight == |RunningFor(s.attempts, key)|
  {
    TabledIsSound(s, key);
    TabledApart(s);
    assert RunningFor(s.attempts, key) == Running(s.attempts, s.items[key]);
  }

  /** A key with a bucket is open while it is not locked and its recent failures and running attempts are fewer than
      five, and a key without one while the table has room or holds a bucket without running attempts. */
  ghost predicate Open(s: State, key: Key, now: Time) {
    if key in s.items then
      && s.items[key] in s.buckets && !LockedAt(s.buckets[s.items[key]], now)
      && CountOf(s, key, now) + |RunningFor(s.attempts, key)| < LIMIT
    else |s.items| < MAX_BUCKETS || exists k :: Evictable(s, k)
  }

  lemma {:induction false} AdmitsWhenOpen(s: State, key: Key, now: Time)
    requires Inv(s) && key in s.items
    ensures s.items[key] in s.buckets && (Admits(Pruned(s.buckets[s.items[key]], now), now) <==> Open(s, key, now))
  {
    RunningIsRunningFor(s, key);
    PruningKeepsExactlyTheWindow(s.buckets[s.items[key]].failures, now);
    hide Inv, RunningFor, Recent, CountSince;
  }

  // ---------------------------------------------------------------- who is admitted

  /** An attempt at a key that has a bucket is admitted exactly when the key is open. It then runs in that bucket, seen
      now, and no other attempt or bucket changes; a refusal only forgets what the window no longer covers. */
  lemma {:induction false} AdmittedExactlyWhenOpen(s: State, key: Key, attempt: AttemptId, now: Time, victim: Option<Key>)
    requires Inv(s) && key in s.items
    ensures var (t, admitted) := BeginStep(s, key, attempt, now, victim);
      && (admitted <==> Open(s, key, now))
      && t.items == s.items && s.items[key] in s.buckets && t.buckets.Keys == s.buckets.Keys
      && (forall id :: id in s.buckets && id != s.items[key] ==> t.buckets[id] == s.buckets[id])
      && (var b, c := s.buckets[s.items[key]], t.buckets[s.items[key]];
          && c.lockedTo == b.lockedTo && c.failures == Recent(b.failures, now)
          && c.lastSeen == (if admitted then now else b.lastSeen) && c.inFlight == b.inFlight + (if admitted then 1 else 0))
      && t.attempts == if admitted then s.attempts[attempt := Attempt(key, s.items[key], false)] else s.attempts
  {
    AdmitsWhenOpen(s, key, now);
    hide Inv, Open, Recent;
  }

  /** An attempt at a key without a bucket is admitted exactly when the table has room or a bucket to spare. It then runs
      alone in a bucket of its own, and no other attempt changes. */
  lemma {:induction false} NewcomerAdmittedExactlyWhenRoom(
    s: State, key: Key, attempt: AttemptId, now: Time, victim: Option<Key>)
    requires Inv(s) && key !in s.items && RightVictim(s, now, victim)
    ensures var (t, admitted) := BeginStep(s, key, attempt, now, victim);
      && (admitted <==> Open(s, key, now))
      && (admitted ==>
            && key in t.items && t.items[key] in t.buckets && t.buckets[t.items[key]] == Bucket([], None, now, 1)
            && t.attempts == s.attempts[attempt := Attempt(key, t.items[key], false)])
      && (!admitted ==> t.attempts == s.attempts && key !in t.items)
  {
    MakeKeepsInv(s, key, now, victim);
    RoomIsFound(s, key, now, victim);
    MadeOnlyForKey(s, key, now, victim);
    hide Inv, MakeStep, Open, RightVictim;
  }

  lemma {:induction false} MadeOnlyForKey(s: State, key: Key, now: Time, victim: Option<Key>)
    requires key !in s.items
    ensures var (t, made) := MakeStep(s, key, now, victim); made.None? ==> key !in t.items
  {
    PruneShrinks(s, now);
    hide PruneAll;
  }

  lemma {:induction false} PruningSparesTheBusy(s: State, now: Time, k: Key)
    requires k in s.items && s.items[k] in s.buckets
    ensures k in PruneAll(s, now).items ==> (Evictable(PruneAll(s, now), k) <==> Evictable(s, k))
    ensures k !in PruneAll(s, now).items ==> Evictable(s, k)
  {
    hide Recent, Tabled;
  }

  lemma {:induction false} SomebodyLeft(s: State, t: State)
    requires (forall k :: k in t.items ==> k in s.items) && |t.items| < |s.items|
    ensures exists k :: k in s.items && k !in t.items
  {
    FewerKeys(t.items.Keys, s.items.Keys);
    assert t.items.Keys != s.items.Keys;
  }

  lemma {:induction false} NobodyLeft(s: State, t: State)
    requires (forall k :: k in t.items ==> k in s.items) && |t.items| >= |s.items|
    ensures t.items.Keys == s.items.Keys
  {
    assert s.items.Keys == t.items.Keys + (s.items.Keys - t.items.Keys);
  }

  /** Once pruned, the table has room or somebody to evict exactly if it had before. */
  lemma {:induction false} PruningKeepsASpare(s: State, now: Time)
    requires Inv(s) && |s.items| >= MAX_BUCKETS
    ensures |PruneAll(s, now).items| < MAX_BUCKETS || !NoneEvictable(PruneAll(s, now)) <==> exists k :: Evictable(s, k)
  {
    var t := PruneAll(s, now);
    PruneShrinks(s, now);
    forall k | k in s.items ensures s.items[k] in s.buckets { TabledIsSound(s, k); }
    InvBound(s);
    hide Inv, PruneAll, Evictable;
    if |t.items| < MAX_BUCKETS {
      SomebodyLeft(s, t);
      var k :| k in s.items && k !in t.items;
      PruningSparesTheBusy(s, now, k);
    } else {
      NobodyLeft(s, t);
      forall k ensures Evictable(s, k) <==> Evictable(t, k) {
        if Evictable(s, k) { EvictableIsTabled(s, k); }
        if Evictable(t, k) { EvictableIsTabled(t, k); }
        if k in s.items { PruningSparesTheBusy(s, now, k); }
      }
    }
  }

  lemma {:induction false} RoomIsFound(s: State, key: Key, now: Time, victim: Option<Key>)
    requires Inv(s) && key !in s.items && RightVictim(s, now, victim)
    ensures MakeStep(s, key, now, victim).1.Some? <==> Open(s, key, now)
  {
    hide Inv, PruneAll, Evictable, Inserted;
    if |s.items| >= MAX_BUCKETS {
      var t := PruneAll(s, now);
      PruneKeepsInv(s, now);
      InvBound(t);
      PruningKeepsASpare(s, now);
      if |t.items| >= MAX_BUCKETS && victim.Some? {
        OldestIsEvictable(t, victim.value);
        EvictKeepsInv(t, victim.value);
      }
    }
  }

  lemma {:induction false} EvictableIsTabled(s: State, k: Key)
    requires Evictable(s, k)
    ensures k in s.items
  {
  }

  /** A full table gives up exactly the buckets without a running attempt, a lock or a recent failure; every bucket that
      stays forgets what the window no longer covers. */
  lemma {:induction false} PruningGivesUpExactlyTheIdle(s: State, now: Time)
    requires Inv(s)
    ensures var t := PruneAll(s, now);
      && t.attempts == s.attempts && t.buckets.Keys == s.buckets.Keys
      && (forall k :: k in t.items <==>
            k in s.items && s.items[k] in s.buckets &&
            !(CountOf(s, k, now) == 0 && RunningFor(s.attempts, k) == {} && !LockedAt(s.buckets[s.items[k]], now)))
      && (forall k :: k in t.items ==>
            && k in s.items && t.items[k] == s.items[k] && s.items[k] in s.buckets
            && t.buckets[t.items[k]] == s.buckets[s.items[k]].(failures := Recent(s.buckets[s.items[k]].failures, now)))
  {
    forall k | k in s.items
      ensures s.items[k] in s.buckets && Tabled(s, s.items[k])
      ensures |Recent(s.buckets[s.items[k]].failures, now)| == CountOf(s, k, now)
      ensures s.buckets[s.items[k]].inFlight == |RunningFor(s.attempts, k)|
    {
      TabledBucket(s, k);
      RunningIsRunningFor(s, k);
      PruningKeepsExactlyTheWindow(s.buckets[s.items[k]].failures, now);
    }
    hide Inv, Recent, RunningFor, CountOf, Tabled;
  }

  /** A newcomer costs nobody a bucket while the table has room; in a full one it costs the idle theirs, and at most one
      other client, seen longest ago among those without a running attempt, if that leaves the table full. */
  lemma {:induction false} NewcomerCosts(s: State, key: Key, attempt: AttemptId, now: Time, victim: Option<Key>)
    requires Inv(s) && key !in s.items && RightVictim(s, now, victim)
    ensures var t, pruned := BeginStep(s, key, attempt, now, victim).0, PruneAll(s, now);
      && (forall k :: k in s.items && k in t.items ==> t.items[k] == s.items[k])
      && (forall k :: k in s.items && k !in t.items ==>
            |s.items| >= MAX_BUCKETS && (k !in pruned.items || (|pruned.items| >= MAX_BUCKETS && Oldest(pruned, k))))
      && (forall j, k :: j in pruned.items && k in pruned.items && j !in t.items && k !in t.items ==> j == k)
  {
    hide Inv, PruneAll, BeginStep, Oldest, NoneEvictable;
    PruningShrinks(s, now);
    NewcomerTakes(s, key, attempt, now, victim);
  }

  lemma {:induction false} NewcomerTakes(s: State, key: Key, attempt: AttemptId, now: Time, victim: Option<Key>)
    requires key !in s.items
    ensures var t, s1 := BeginStep(s, key, attempt, now, victim).0, Thinned(s, now);
      && (forall k :: k != key ==> (k in t.items <==> k in s1.items && !(|s1.items| >= MAX_BUCKETS && victim == Some(k))))
      && (forall k :: k != key && k in t.items && k in s1.items ==> t.items[k] == s1.items[k])
  {
    hide Thinned;
  }

  lemma {:induction false} PruningShrinks(s: State, now: Time)
    ensures forall k :: k in PruneAll(s, now).items ==> k in s.items && PruneAll(s, now).items[k] == s.items[k]
  {
    hide Pruned;
  }

  /** Who cannot lose a bucket to a newcomer: anybody while the table has room, and whoever has an attempt running. */
  lemma {:induction false} SafeExactlyWithRoomOrAnAttempt(s: State, key: Key)
    requires Inv(s)
    ensures RoomOrBusy(s, key) <==> |s.items| < MAX_BUCKETS || RunningFor(s.attempts, key) != {}
  {
    if key in s.items {
      RunningIsRunningFor(s, key);
    } else {
      assert RunningFor(s.attempts, key) == {};
    }
    hide Inv, RunningFor;
  }

  // ---------------------------------------------------------------- asking first

  /** Asking answers what an attempt at the same moment would be told, as far as the key's own bucket decides, and
      changes nothing but what the window no longer covers. */
  lemma {:induction false} AskingAnswersForTheAttempt(s: State, key: Key, now: Time, attempt: AttemptId, victim: Option<Key>)
    requires Inv(s)
    ensures var (t, answer) := AskStep(s, key, now);
      && (key in s.items ==> (answer <==> BeginStep(s, key, attempt, now, victim).1))
      && (key !in s.items ==> answer && t == s)
      && t.items == s.items && t.attempts == s.attempts
      && (Open(t, key, now) <==> Open(s, key, now))
  {
    if key in s.items {
      AdmitsWhenOpen(s, key, now);
      AskKeepsInv(s, key, now);
      AdmitsWhenOpen(AskStep(s, key, now).0, key, now);
      PrunedAgain(s.buckets[s.items[key]].failures, now);
      hide Inv, Open, Recent;
    }
  }

  lemma {:induction false} PrunedAgain(failures: seq<Time>, now: Time)
    ensures Recent(Recent(failures, now), now) == Recent(failures, now)
    decreases |failures|
  {
    if failures == [] {
    } else {
      PrunedAgain(failures[..|failures| - 1], now);
      var kept := Recent(failures[..|failures| - 1], now);
      assert (kept + [failures[|failures| - 1]])[..|kept|] == kept;
    }
  }

  // ---------------------------------------------------------------- what an attempt leaves behind

  /** An attempt ends once: its place is free again, nobody else's attempt or bucket changes, and a second call does
      nothing. A success forgets the failures and the lock; a failure is remembered next to the recent ones and locks the
      key for the window exactly if they are five then; a cancellation leaves both alone. The key loses its bucket exactly
      when nothing runs in it and nothing is remembered. */
  lemma {:induction false} FinishingRecords(s: State, attempt: AttemptId, result: Option<bool>, now: Time)
    requires Inv(s) && attempt in s.attempts && !s.attempts[attempt].finished
    ensures var a, t := s.attempts[attempt], FinishStep(s, attempt, result, now);
      && a.bucket in s.buckets && t.buckets.Keys == s.buckets.Keys
      && t.attempts == s.attempts[attempt := a.(finished := true)]
      && (forall id :: id in s.buckets && id != a.bucket ==> t.buckets[id] == s.buckets[id])
      && (var b, c := s.buckets[a.bucket], t.buckets[a.bucket];
          && c.inFlight == b.inFlight - 1 && c.lastSeen == (if result.Some? then now else b.lastSeen)
          && (result == Some(true) ==> c.failures == [] && c.lockedTo == None)
          && (result == Some(false) ==>
                && |c.failures| == CountSince(b.failures, now - WINDOW) + 1 && now in c.failures
                && c.lockedTo == if CountSince(b.failures, now - WINDOW) + 1 >= LIMIT then Some(now + WINDOW) else b.lockedTo)
          && (result == None ==> c.failures == b.failures && c.lockedTo == b.lockedTo)
          && t.items == if c.inFlight == 0 && c.failures == [] then s.items - {a.key} else s.items)
  {
    HeldBucketExists(s, attempt);
    PruningKeepsExactlyTheWindow(s.buckets[s.attempts[attempt].bucket].failures, now);
    hide Inv, Recent, CountSince;
  }

  lemma {:induction false} FinishedOnce(
    s: State, attempt: AttemptId, result: Option<bool>, now: Time, again: Option<bool>, later: Time)
    requires Inv(s) && attempt in s.attempts
    ensures FinishStep(FinishStep(s, attempt, result, now), attempt, again, later) == FinishStep(s, attempt, result, now)
  {
    if !s.attempts[attempt].finished { HeldBucketExists(s, attempt); }
    hide Inv, Recorded;
  }

  /** Letting an attempt go gives back exactly the place it took: what was open before is open afterwards. */
  lemma {:induction false} CancellingGivesThePlaceBack(s: State, key: Key, attempt: AttemptId, now: Time, victim: Option<Key>)
    requires Inv(s) && key in s.items && attempt !in s.attempts && BeginStep(s, key, attempt, now, victim).1
    ensures Open(FinishStep(BeginStep(s, key, attempt, now, victim).0, attempt, None, now), key, now)
  {
    var s1 := BeginStep(s, key, attempt, now, victim).0;
    AdmittedExactlyWhenOpen(s, key, attempt, now, victim);
    BeginKeepsInv(s, key, attempt, now, victim);
    FinishingRecords(s1, attempt, None, now);
    FinishKeepsInv(s1, attempt, None, now);
    var t := FinishStep(s1, attempt, None, now);
    PrunedAgain(s.buckets[s.items[key]].failures, now);
    hide Recent, Inv, BeginStep, FinishStep;
    if key in t.items {
      AdmitsWhenOpen(s, key, now);
      AdmitsWhenOpen(t, key, now);
      hide Open;
    } else {
      hide RunningFor;
      assert key !in t.items && key in s1.items;
      InvBound(s1);
      EvictKeepsSize(s1, key);
    }
  }

  lemma {:induction false} EvictKeepsSize(s: State, key: Key)
    requires key in s.items && |s.items| <= MAX_BUCKETS
    ensures |(s.items - {key})| < MAX_BUCKETS
  {
    assert s.items.Keys == (s.items - {key}).Keys + {key};
  }

  /** A lock that nothing renews ends: once it and every remembered failure are a window old, an attempt is admitted
      while fewer than five are running. */
  lemma {:induction false} LockEnds(s: State, key: Key, attempt: AttemptId, now: Time, victim: Option<Key>)
    requires Inv(s) && key in s.items && s.items[key] in s.buckets && |RunningFor(s.attempts, key)| < LIMIT
    requires var b := s.buckets[s.items[key]];
      (b.lockedTo.Some? ==> b.lockedTo.value <= now) && forall t :: t in b.failures ==> t <= now - WINDOW
    ensures BeginStep(s, key, attempt, now, victim).1
  {
    AdmittedExactlyWhenOpen(s, key, attempt, now, victim);
    NothingRecent(s.buckets[s.items[key]].failures, now - WINDOW);
    hide Inv, BeginStep, RunningFor, CountSince;
  }

  lemma {:induction false} NothingRecent(failures: seq<Time>, cutoff: Time)
    requires forall t :: t in failures ==> t <= cutoff
    ensures CountSince(failures, cutoff) == 0
  {
    if failures == [] {
    } else {
      assert forall t :: t in failures[1..] ==> t in failures;
      assert failures[0] in failures;
      NothingRecent(failures[1..], cutoff);
    }
  }
}
