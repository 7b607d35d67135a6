/** The bounded routing cache (db/task_mapping_cache.go): a map of list elements plus a list in publication
    order, refining a plain sequence of entries. */
module MappingCache {
  import opened Wrappers
  import opened Sequences

  type TaskId = string
  type ChannelId = string
  type Time = int

  datatype Mapping = Mapping(taskId: TaskId, channel: ChannelId, kind: string, aliasId: string)

  datatype Entry = Entry(mapping: Mapping, cachedAt: Time)

  // ---------------------------------------------------------------- the sequence it refines

  predicate Expired(e: Entry, now: Time, ttl: int) { now - e.cachedAt >= ttl }

  function DropExpired(s: seq<Entry>, now: Time, ttl: int): seq<Entry> {
    if s != [] && Expired(s[0], now, ttl) then DropExpired(s[1..], now, ttl) else s
  }

  predicate HasId(s: seq<Entry>, id: TaskId) { exists k :: 0 <= k < |s| && s[k].mapping.taskId == id }

  function Without(s: seq<Entry>, id: TaskId): seq<Entry> { Filter(s, (e: Entry) => e.mapping.taskId != id) }

  function OtherChannels(s: seq<Entry>, channel: ChannelId): seq<Entry> { Filter(s, (e: Entry) => e.mapping.channel != channel) }

  /** The sequence after a publish: expired entries go first, a known id moves to the back, and a new one
      pushes out the oldest. */
  function Published(s: seq<Entry>, m: Mapping, now: Time, max: int, ttl: int): seq<Entry> {
    var live := DropExpired(s, now, ttl);
    if HasId(live, m.taskId) then Without(live, m.taskId) + [Entry(m, now)]
    else if max <= 0 then live
    else LastN(live, max - 1) + [Entry(m, now)]
  }

  /** What a lookup may return. */
  predicate Answers(s: seq<Entry>, id: TaskId, now: Time, ttl: int, found: Option<Mapping>) {
    match found
    case Some(m) => exists k :: 0 <= k < |s| && s[k].mapping == m && m.taskId == id && !Expired(s[k], now, ttl)
    case None => forall k :: 0 <= k < |s| && s[k].mapping.taskId == id ==> Expired(s[k], now, ttl)
  }

  ghost predicate Sorted(s: seq<Entry>) { forall i, j :: 0 <= i < j < |s| ==> s[i].cachedAt <= s[j].cachedAt }

  ghost predicate UniqueIds(s: seq<Entry>) {
    forall i, j :: 0 <= i < j < |s| ==> s[i].mapping.taskId != s[j].mapping.taskId
  }

  // ---------------------------------------------------------------- laws of the sequence

  /** In publication order, dropping the expired front drops exactly the expired entries. */
  lemma {:induction false} PurgeRemovesExactlyTheExpired(s: seq<Entry>, now: Time, ttl: int)
    requires Sorted(s)
    ensures DropExpired(s, now, ttl) == Filter(s, (e: Entry) => !Expired(e, now, ttl))
    ensures exists n :: 0 <= n <= |s| && DropExpired(s, now, ttl) == s[n..]
  {
    if s != [] && Expired(s[0], now, ttl) {
      PurgeRemovesExactlyTheExpired(s[1..], now, ttl);
      var n :| 0 <= n <= |s[1..]| && DropExpired(s[1..], now, ttl) == s[1..][n..];
      assert s[1..][n..] == s[n + 1..];
    } else {
      assert s == s[0..];
      forall x | x in s ensures !Expired(x, now, ttl) {
        var k :| 0 <= k < |s| && s[k] == x;
      }
      FilterAll(s, (e: Entry) => !Expired(e, now, ttl));
    }
  }

  lemma {:induction false} FilterKeepsOrder(s: seq<Entry>, keep: Entry -> bool)
    requires Sorted(s) && UniqueIds(s)
    ensures Sorted(Filter(s, keep)) && UniqueIds(Filter(s, keep))
  {
    FilterMembers(s, keep);
    if s == [] {
    } else {
      FilterKeepsOrder(s[1..], keep);
      FilterMembers(s[1..], keep);
      var rest := Filter(s[1..], keep);
      forall x | x in rest ensures s[0].cachedAt <= x.cachedAt && s[0].mapping.taskId != x.mapping.taskId {
        var k :| 0 <= k < |s[1..]| && s[1..][k] == x;
        assert s[k + 1] == x;
      }
    }
  }

  ghost predicate Shaped(s: seq<Entry>, now: Time) {
    Sorted(s) && UniqueIds(s) && forall x :: x in s ==> x.cachedAt <= now
  }

  lemma {:induction false} AppendKeepsShape(s: seq<Entry>, e: Entry)
    requires Shaped(s, e.cachedAt) && forall x :: x in s ==> x.mapping.taskId != e.mapping.taskId
    ensures Shaped(s + [e], e.cachedAt)
  {
    assert forall k :: 0 <= k < |s| ==> s[k] in s;
  }

  lemma {:induction false} SuffixKeepsShape(s: seq<Entry>, n: nat, now: Time)
    requires Shaped(s, now) && n <= |s|
    ensures Shaped(s[n..], now)
  {
  }

  lemma {:induction false} WithoutKeepsShape(s: seq<Entry>, id: TaskId, now: Time)
    requires Shaped(s, now)
    ensures Shaped(Without(s, id), now)
    ensures forall x :: x in Without(s, id) <==> x in s && x.mapping.taskId != id
  {
    FilterKeepsOrder(s, (e: Entry) => e.mapping.taskId != id);
    FilterMembers(s, (e: Entry) => e.mapping.taskId != id);
  }

  lemma {:induction false} FilterDropsOne(s: seq<Entry>, k: nat)
    requires UniqueIds(s) && k < |s|
    ensures Without(s, s[k].mapping.taskId) == s[..k] + s[k + 1..]
  {
    var keep := (e: Entry) => e.mapping.taskId != s[k].mapping.taskId;
    if k == 0 {
      FilterAll(s[1..], keep);
    } else {
      FilterDropsOne(s[1..], k - 1);
      assert s[1..][k - 1] == s[k];
      assert s[1..][..k - 1] == s[1..k] && s[1..][k..] == s[k + 1..];
      assert [s[0]] + (s[1..k] + s[k + 1..]) == s[..k] + s[k + 1..];
    }
  }

  lemma {:induction false} DropKeepsShape(s: seq<Entry>, now: Time, ttl: int)
    requires Shaped(s, now)
    ensures Shaped(DropExpired(s, now, ttl), now) && |DropExpired(s, now, ttl)| <= |s|
  {
    PurgeRemovesExactlyTheExpired(s, now, ttl);
    var n :| 0 <= n <= |s| && DropExpired(s, now, ttl) == s[n..];
    SuffixKeepsShape(s, n, now);
  }

  lemma {:induction false} MoveToBackKeepsShape(s: seq<Entry>, e: Entry)
    requires Shaped(s, e.cachedAt) && HasId(s, e.mapping.taskId)
    ensures var t := Without(s, e.mapping.taskId) + [e]; Shaped(t, e.cachedAt) && |t| == |s|
  {
    var k :| 0 <= k < |s| && s[k].mapping.taskId == e.mapping.taskId;
    WithoutKeepsShape(s, e.mapping.taskId, e.cachedAt);
    FilterDropsOne(s, k);
    AppendKeepsShape(Without(s, e.mapping.taskId), e);
  }

  lemma {:induction false} PushBackKeepsShape(s: seq<Entry>, n: nat, e: Entry)
    requires Shaped(s, e.cachedAt) && !HasId(s, e.mapping.taskId)
    ensures var t := LastN(s, n) + [e]; Shaped(t, e.cachedAt) && |t| <= n + 1
  {
    SuffixKeepsShape(s, if |s| <= n then 0 else |s| - n, e.cachedAt);
    AppendKeepsShape(LastN(s, n), e);
  }

  /** Publishing keeps entries in order of publication, ids unique and the size within the bound. */
  lemma {:induction false} PublishKeepsShape(s: seq<Entry>, m: Mapping, now: Time, max: int, ttl: int)
    requires Shaped(s, now) && (|s| <= max || s == [])
    ensures var t := Published(s, m, now, max, ttl); Shaped(t, now) && (|t| <= max || t == [])
  {
    hide Shaped, Without, HasId;
    DropKeepsShape(s, now, ttl);
    var live := DropExpired(s, now, ttl);
    if HasId(live, m.taskId) {
      MoveToBackKeepsShape(live, Entry(m, now));
    } else if max > 0 {
      PushBackKeepsShape(live, max - 1, Entry(m, now));
    }
  }

  /** A filtered suffix of an ordered sequence, when the filter drops a prefix, is a suffix of the filtered one. */
  lemma {:induction false} DropThenLast(s: seq<Entry>, n: nat, now: Time, ttl: int)
    requires Sorted(s)
    ensures DropExpired(LastN(s, n), now, ttl) == LastN(DropExpired(s, now, ttl), n)
  {
    if |s| > n {
      if Expired(s[0], now, ttl) {
        assert LastN(s, n) == LastN(s[1..], n);
        DropThenLast(s[1..], n, now, ttl);
      } else {
        assert forall k :: 0 <= k < |s| ==> !Expired(s[k], now, ttl);
      }
    } else {
      PurgeRemovesExactlyTheExpired(s, now, ttl);
    }
  }

  lemma {:induction false} DropLater(s: seq<Entry>, now: Time, later: Time, ttl: int)
    requires now <= later
    ensures DropExpired(DropExpired(s, now, ttl), later, ttl) == DropExpired(s, later, ttl)
  {
    if s != [] && Expired(s[0], now, ttl) { DropLater(s[1..], now, later, ttl); }
  }

  lemma {:induction false} DropConcat(s: seq<Entry>, e: Entry, now: Time, ttl: int)
    ensures DropExpired(s + [e], now, ttl) ==
            if DropExpired(s, now, ttl) == [] then DropExpired([e], now, ttl) else DropExpired(s, now, ttl) + [e]
  {
    if s == [] {
      assert s + [e] == [e];
    } else if Expired(s[0], now, ttl) {
      assert (s + [e])[1..] == s[1..] + [e];
      DropConcat(s[1..], e, now, ttl);
    }
  }

  lemma {:induction false} DropWithout(s: seq<Entry>, id: TaskId, now: Time, ttl: int)
    requires Sorted(s) && UniqueIds(s)
    ensures DropExpired(Without(s, id), now, ttl) == Without(DropExpired(s, now, ttl), id)
  {
    var other := (e: Entry) => e.mapping.taskId != id;
    var live := (e: Entry) => !Expired(e, now, ttl);
    FilterKeepsOrder(s, other);
    PurgeRemovesExactlyTheExpired(s, now, ttl);
    PurgeRemovesExactlyTheExpired(Without(s, id), now, ttl);
    FilterSwap(s, other, live);
  }

  /** Taking one id out of the last n is taking it out first, when it is among them; otherwise the last n - 1
      without it are the last n - 1. */
  lemma {:induction false} LastNWithout(s: seq<Entry>, id: TaskId, n: nat)
    requires UniqueIds(s) && n > 0
    ensures LastN(Without(s, id), n - 1) ==
            if HasId(LastN(s, n), id) then Without(LastN(s, n), id) else LastN(LastN(s, n), n - 1)
  {
    if k: nat :| k < |s| && s[k].mapping.taskId == id {
      FilterDropsOne(s, k);
      var skip := |s| - |LastN(s, n)|;
      if skip <= k {
        LastNWithoutLate(s, k, n);
      } else {
        LastNWithoutEarly(s, k, n);
      }
    } else {
      forall x | x in s ensures x.mapping.taskId != id {
        var i :| 0 <= i < |s| && s[i] == x;
      }
      FilterAll(s, (e: Entry) => e.mapping.taskId != id);
    }
  }

  lemma {:induction false} LastNWithoutLate(s: seq<Entry>, k: nat, n: nat)
    requires UniqueIds(s) && n > 0 && k < |s| && |s| - n <= k
    ensures var id := s[k].mapping.taskId;
            HasId(LastN(s, n), id) && LastN(s[..k] + s[k + 1..], n - 1) == Without(LastN(s, n), id)
  {
    hide UniqueIds, Without;
    var skip := |s| - |LastN(s, n)|;
    SuffixKeepsUnique(s, skip);
    FilterDropsOne(s[skip..], k - skip);
    CutLate(s, k, skip);
  }

  lemma {:induction false} SuffixKeepsUnique(s: seq<Entry>, n: nat)
    requires UniqueIds(s) && n <= |s|
    ensures UniqueIds(s[n..])
  {
  }

  lemma {:induction false} CutLate<T>(s: seq<T>, k: nat, skip: nat)
    requires skip <= k < |s|
    ensures s[skip..][..k - skip] + s[skip..][k - skip + 1..] == (s[..k] + s[k + 1..])[skip..]
  {
  }

  lemma {:induction false} LastNWithoutEarly(s: seq<Entry>, k: nat, n: nat)
    requires UniqueIds(s) && n > 0 && k < |s| - n
    ensures var id := s[k].mapping.taskId;
            !HasId(LastN(s, n), id) && LastN(s[..k] + s[k + 1..], n - 1) == LastN(LastN(s, n), n - 1)
  {
    var tail := LastN(s, n);
    forall i | 0 <= i < |tail| ensures tail[i].mapping.taskId != s[k].mapping.taskId {
      assert tail[i] == s[|s| - n + i];
    }
  }

  lemma {:induction false} PublishFollows(c: seq<Entry>, d: seq<Entry>, m: Mapping, at: Time, max: nat, ttl: int)
    requires Shaped(d, at)
    requires DropExpired(c, at, ttl) == DropExpired(LastN(d, max), at, ttl)
    ensures DropExpired(Published(c, m, at, max, ttl), at, ttl) ==
            DropExpired(LastN(Without(d, m.taskId) + [Entry(m, at)], max), at, ttl)
  {
    var id, e := m.taskId, Entry(m, at);
    var live := DropExpired(c, at, ttl);
    var rest := Without(d, id);
    if max == 0 {
      assert LastN(d, 0) == [] && LastN(rest + [e], 0) == [];
    } else {
      assert LastN(rest + [e], max) == LastN(rest, max - 1) + [e];
      DropThenLast(d, max, at, ttl);
      var fresh' := DropExpired(d, at, ttl);
      PurgeRemovesExactlyTheExpired(d, at, ttl);
      assert live == LastN(fresh', max);
      FilterKeepsOrder(d, (x: Entry) => x.mapping.taskId != id);
      DropThenLast(rest, max - 1, at, ttl);
      DropWithout(d, id, at, ttl);
      FilterKeepsOrder(d, (x: Entry) => !Expired(x, at, ttl));
      LastNWithout(fresh', id, max);
      var kept := LastN(Without(fresh', id), max - 1);
      assert Published(c, m, at, max, ttl) == kept + [e];
      assert DropExpired(LastN(rest, max - 1), at, ttl) == kept;
      DropAgain(rest, at, ttl);
      DropConcat(LastN(rest, max - 1), e, at, ttl);
      DropConcat(kept, e, at, ttl);
      DropLater(LastN(rest, max - 1), at, at, ttl);
    }
  }

  lemma {:induction false} DropAgain(s: seq<Entry>, now: Time, ttl: int)
    ensures DropExpired(DropExpired(s, now, ttl), now, ttl) == DropExpired(s, now, ttl)
  {
    DropLater(s, now, now, ttl);
  }

  // ---------------------------------------------------------------- what a history leaves behind

  datatype Event =
    | Publishing(mapping: Mapping, at: Time)
    | Purging(at: Time)
    | LookingUp(id: TaskId, at: Time)
    | Invalidating(channel: ChannelId, at: Time)
    | Clearing(at: Time)

  ghost predicate InTimeOrder(h: seq<Event>) { forall i, j :: 0 <= i < j < |h| ==> h[i].at <= h[j].at }

  predicate HasLive(s: seq<Entry>, id: TaskId, now: Time, ttl: int) {
    exists k :: 0 <= k < |s| && s[k].mapping.taskId == id && !Expired(s[k], now, ttl)
  }

  /** One call on the cache. */
  function CacheStep(s: seq<Entry>, ev: Event, max: int, ttl: int): seq<Entry> {
    match ev
    case Publishing(m, at) => Published(s, m, at, max, ttl)
    case Purging(at) => DropExpired(s, at, ttl)
    case LookingUp(id, at) => if HasLive(s, id, at, ttl) then s else Without(s, id)
    case Invalidating(channel, _) => OtherChannels(s, channel)
    case Clearing(_) => []
  }

  /** The simple sequence: a publish moves its id to the back and the oldest beyond the bound is forgotten.
      Nothing expires, and lookups and purges do nothing. */
  function SimpleStep(s: seq<Entry>, ev: Event, max: nat): seq<Entry> {
    match ev
    case Publishing(m, at) => LastN(Without(s, m.taskId) + [Entry(m, at)], max)
    case Purging(_) => s
    case LookingUp(_, _) => s
    case Invalidating(channel, _) => OtherChannels(s, channel)
    case Clearing(_) => []
  }

  function Cached(h: seq<Event>, max: int, ttl: int): seq<Entry> {
    if h == [] then [] else CacheStep(Cached(h[..|h| - 1], max, ttl), h[|h| - 1], max, ttl)
  }

  function Simple(h: seq<Event>, max: nat): seq<Entry> {
    if h == [] then [] else SimpleStep(Simple(h[..|h| - 1], max), h[|h| - 1], max)
  }

  /** Every published id once, at the place of its last publish. */
  function Latest(h: seq<Event>): seq<Entry> {
    if h == [] then []
    else
      var rest := Latest(h[..|h| - 1]);
      match h[|h| - 1]
      case Publishing(m, at) => Without(rest, m.taskId) + [Entry(m, at)]
      case _ => rest
  }

  lemma {:induction false} LatestShape(h: seq<Event>, now: Time)
    requires InTimeOrder(h) && (h != [] ==> h[|h| - 1].at <= now)
    ensures Shaped(Latest(h), now)
  {
    if h == [] {
    } else {
      var front, last := h[..|h| - 1], h[|h| - 1];
      LatestShape(front, last.at);
      if last.Publishing? {
        WithoutKeepsShape(Latest(front), last.mapping.taskId, last.at);
        AppendKeepsShape(Without(Latest(front), last.mapping.taskId), Entry(last.mapping, last.at));
      }
      LaterKeepsShape(Latest(h), last.at, now);
    }
  }

  lemma {:induction false} LaterKeepsShape(s: seq<Entry>, now: Time, later: Time)
    requires Shaped(s, now) && now <= later
    ensures Shaped(s, later)
  {
  }

  lemma {:induction false} CacheStepKeepsShape(s: seq<Entry>, ev: Event, max: int, ttl: int)
    requires Shaped(s, ev.at) && (|s| <= max || s == [])
    ensures var t := CacheStep(s, ev, max, ttl); Shaped(t, ev.at) && (|t| <= max || t == [])
  {
    hide Published, Shaped;
    match ev
    case Publishing(m, at) => PublishKeepsShape(s, m, at, max, ttl);
    case Purging(at) => DropKeepsShape(s, at, ttl);
    case LookingUp(id, at) => WithoutKeepsShape(s, id, at);
      FilterMembers(s, (e: Entry) => e.mapping.taskId != id);
    case Invalidating(channel, at) => OtherChannelsKeepsShape(s, channel, at);
    case Clearing(_) => EmptyIsShaped(ev.at);
  }

  lemma {:induction false} EmptyIsShaped(now: Time)
    ensures Shaped([], now)
  {
  }

  lemma {:induction false} OtherChannelsKeepsShape(s: seq<Entry>, channel: ChannelId, now: Time)
    requires Shaped(s, now)
    ensures Shaped(OtherChannels(s, channel), now) && |OtherChannels(s, channel)| <= |s|
  {
    FilterKeepsOrder(s, (e: Entry) => e.mapping.channel != channel);
    FilterMembers(s, (e: Entry) => e.mapping.channel != channel);
  }

  lemma {:induction false} SimpleStepKeepsShape(s: seq<Entry>, ev: Event, max: nat)
    requires Shaped(s, ev.at) && |s| <= max
    ensures var t := SimpleStep(s, ev, max); Shaped(t, ev.at) && |t| <= max
  {
    hide Shaped, Without;
    match ev
    case Publishing(m, at) =>
      WithoutKeepsShape(s, m.taskId, at);
      AppendKeepsShape(Without(s, m.taskId), Entry(m, at));
      var t := Without(s, m.taskId) + [Entry(m, at)];
      SuffixKeepsShape(t, |t| - |LastN(t, max)|, at);
    case Purging(_) =>
    case LookingUp(_, _) =>
    case Invalidating(channel, at) => OtherChannelsKeepsShape(s, channel, at);
    case Clearing(_) => EmptyIsShaped(ev.at);
  }

  lemma {:induction false} HistoryKeepsShape(h: seq<Event>, max: nat, ttl: int, now: Time)
    requires InTimeOrder(h) && (h != [] ==> h[|h| - 1].at <= now)
    ensures Shaped(Cached(h, max, ttl), now) && |Cached(h, max, ttl)| <= max
    ensures Shaped(Simple(h, max), now) && |Simple(h, max)| <= max
  {
    hide Shaped, CacheStep, SimpleStep;
    if h == [] {
      EmptyIsShaped(now);
    } else {
      var front, last := h[..|h| - 1], h[|h| - 1];
      HistoryKeepsShape(front, max, ttl, last.at);
      CacheStepKeepsShape(Cached(front, max, ttl), last, max, ttl);
      SimpleStepKeepsShape(Simple(front, max), last, max);
      LaterKeepsShape(Cached(h, max, ttl), last.at, now);
      LaterKeepsShape(Simple(h, max), last.at, now);
    }
  }

  lemma {:induction false} DropOtherChannels(s: seq<Entry>, channel: ChannelId, now: Time, ttl: int)
    requires Sorted(s) && UniqueIds(s)
    ensures DropExpired(OtherChannels(s, channel), now, ttl) == OtherChannels(DropExpired(s, now, ttl), channel)
  {
    var other := (e: Entry) => e.mapping.channel != channel;
    FilterKeepsOrder(s, other);
    PurgeRemovesExactlyTheExpired(s, now, ttl);
    PurgeRemovesExactlyTheExpired(OtherChannels(s, channel), now, ttl);
    FilterSwap(s, other, (e: Entry) => !Expired(e, now, ttl));
  }

  /** A lookup that finds nothing live removes at most an expired entry. */
  lemma {:induction false} MissDropsNothingLive(s: seq<Entry>, id: TaskId, now: Time, ttl: int)
    requires Shaped(s, now) && !HasLive(s, id, now, ttl)
    ensures DropExpired(Without(s, id), now, ttl) == DropExpired(s, now, ttl)
  {
    DropWithout(s, id, now, ttl);
    PurgeRemovesExactlyTheExpired(s, now, ttl);
    FilterMembers(s, (e: Entry) => !Expired(e, now, ttl));
    forall x | x in DropExpired(s, now, ttl) ensures x.mapping.taskId != id {
      var k :| 0 <= k < |s| && s[k] == x;
    }
    FilterAll(DropExpired(s, now, ttl), (e: Entry) => e.mapping.taskId != id);
  }

  lemma {:induction false} StepFollows(c: seq<Entry>, d: seq<Entry>, ev: Event, max: nat, ttl: int)
    requires Shaped(c, ev.at) && Shaped(d, ev.at) && |d| <= max
    requires DropExpired(c, ev.at, ttl) == DropExpired(d, ev.at, ttl)
    ensures DropExpired(CacheStep(c, ev, max, ttl), ev.at, ttl) == DropExpired(SimpleStep(d, ev, max), ev.at, ttl)
  {
    hide Published, DropExpired, HasLive, Without;
    match ev
    case Publishing(m, at) => PublishFollows(c, d, m, at, max, ttl);
    case Purging(at) => DropLater(c, at, at, ttl);
    case LookingUp(id, at) => if !HasLive(c, id, at, ttl) { MissDropsNothingLive(c, id, at, ttl); }
    case Invalidating(channel, at) => DropOtherChannels(c, channel, at, ttl); DropOtherChannels(d, channel, at, ttl);
    case Clearing(_) =>
  }

  /** After any history of calls in time order, the cache's unexpired entries are exactly the unexpired entries
      of the simple sequence, in the same order: eager purging never costs or gains an answer. */
  lemma {:induction false} CacheRefinesSimple(h: seq<Event>, now: Time, max: nat, ttl: int)
    requires InTimeOrder(h) && (h != [] ==> h[|h| - 1].at <= now)
    ensures DropExpired(Cached(h, max, ttl), now, ttl) == DropExpired(Simple(h, max), now, ttl)
  {
    hide Shaped, CacheStep, SimpleStep, DropExpired;
    if h == [] {
    } else {
      var front, last := h[..|h| - 1], h[|h| - 1];
      CacheRefinesSimple(front, last.at, max, ttl);
      HistoryKeepsShape(front, max, ttl, last.at);
      StepFollows(Cached(front, max, ttl), Simple(front, max), last, max, ttl);
      DropLater(Cached(h, max, ttl), last.at, now, ttl);
      DropLater(Simple(h, max), last.at, now, ttl);
    }
  }

  /** A lookup after any history answers with exactly the unexpired entry of the simple sequence, if any. */
  lemma {:induction false} LookupIsExact(h: seq<Event>, id: TaskId, now: Time, max: nat, ttl: int, found: Option<Mapping>)
    requires InTimeOrder(h) && (h != [] ==> h[|h| - 1].at <= now)
    ensures Answers(Cached(h, max, ttl), id, now, ttl, found) <==> Answers(Simple(h, max), id, now, ttl, found)
  {
    hide Cached, Simple;
    HistoryKeepsShape(h, max, ttl, now);
    CacheRefinesSimple(h, now, max, ttl);
    AnswersFromLive(Cached(h, max, ttl), id, now, ttl, found);
    AnswersFromLive(Simple(h, max), id, now, ttl, found);
  }

  ghost predicate AnsweredBy(live: seq<Entry>, id: TaskId, found: Option<Mapping>) {
    match found
    case Some(m) => exists x :: x in live && x.mapping == m && m.taskId == id
    case None => forall x :: x in live ==> x.mapping.taskId != id
  }

  lemma {:induction false} AnswersFromLive(s: seq<Entry>, id: TaskId, now: Time, ttl: int, found: Option<Mapping>)
    requires Shaped(s, now)
    ensures Answers(s, id, now, ttl, found) <==> AnsweredBy(DropExpired(s, now, ttl), id, found)
  {
    PurgeRemovesExactlyTheExpired(s, now, ttl);
    FilterMembers(s, (e: Entry) => !Expired(e, now, ttl));
    hide DropExpired, Filter;
    assert forall k :: 0 <= k < |s| ==> s[k] in s;
  }

  /** Without invalidation, the simple sequence is the `max` most recently published distinct ids. */
  lemma {:induction false} SimpleIsMostRecent(h: seq<Event>, max: nat)
    requires InTimeOrder(h) && forall i :: 0 <= i < |h| ==> !h[i].Invalidating? && !h[i].Clearing?
    ensures Simple(h, max) == LastN(Latest(h), max)
  {
    if h == [] {
    } else {
      var front, last := h[..|h| - 1], h[|h| - 1];
      SimpleIsMostRecent(front, max);
      if last.Publishing? {
        LatestShape(front, last.at);
        PublishIsMostRecent(Latest(front), last.mapping, last.at, max);
      }
    }
  }

  lemma {:induction false} PublishIsMostRecent(d: seq<Entry>, m: Mapping, at: Time, max: nat)
    requires Shaped(d, at)
    ensures LastN(Without(LastN(d, max), m.taskId) + [Entry(m, at)], max) ==
            LastN(Without(d, m.taskId) + [Entry(m, at)], max)
  {
    var e := [Entry(m, at)];
    if max > 0 {
      LastNWithout(d, m.taskId, max);
      var a, b := Without(LastN(d, max), m.taskId), Without(d, m.taskId);
      assert LastN(a + e, max) == LastN(a, max - 1) + e;
      assert LastN(b + e, max) == LastN(b, max - 1) + e;
      SuffixKeepsShape(d, |d| - |LastN(d, max)|, at);
      if !HasId(LastN(d, max), m.taskId) {
        WithoutAbsent(LastN(d, max), m.taskId);
      } else {
        MoveToBackKeepsShape(LastN(d, max), Entry(m, at));
      }
    }
  }

  // ---------------------------------------------------------------- the list and the map

  type Element = nat

  ghost predicate Distinct(order: seq<Element>) { forall i, j :: 0 <= i < j < |order| ==> order[i] != order[j] }

  /** The map and the list are in bijection: each id's element is in the list, once, and holds that id. */
  ghost predicate Linked(entries: map<TaskId, Element>, order: seq<Element>, values: map<Element, Entry>) {
    && Distinct(order)
    && (forall el :: el in order ==>
          el in values && values[el].mapping.taskId in entries && entries[values[el].mapping.taskId] == el)
    && (forall id :: id in entries ==> entries[id] in order && values[entries[id]].mapping.taskId == id)
  }

  function Image(order: seq<Element>, values: map<Element, Entry>): seq<Entry>
    requires forall el :: el in order ==> el in values
  {
    seq(|order|, i requires 0 <= i < |order| => values[order[i]])
  }

  lemma {:induction false} LinkedIsUnique(entries: map<TaskId, Element>, order: seq<Element>, values: map<Element, Entry>)
    requires Linked(entries, order, values)
    ensures UniqueIds(Image(order, values))
  {
    var s := Image(order, values);
    forall i, j | 0 <= i < j < |s| ensures s[i].mapping.taskId != s[j].mapping.taskId {
      assert order[i] != order[j];
    }
  }

  lemma {:induction false} CutMembers(order: seq<Element>, k: nat)
    requires Distinct(order) && k < |order|
    ensures var cut := order[..k] + order[k + 1..];
            Distinct(cut) && forall el :: el in cut <==> el in order && el != order[k]
  {
    var cut := order[..k] + order[k + 1..];
    assert forall i :: 0 <= i < |cut| ==> cut[i] == order[if i < k then i else i + 1];
    forall el | el in order && el != order[k] ensures el in cut {
      var i :| 0 <= i < |order| && order[i] == el;
      assert cut[if i < k then i else i - 1] == el;
    }
  }

  lemma {:induction false} CutKeepsLinked(
    entries: map<TaskId, Element>, order: seq<Element>, values: map<Element, Entry>, k: nat)
    requires Linked(entries, order, values) && k < |order|
    ensures var id := values[order[k]].mapping.taskId;
            var cut := order[..k] + order[k + 1..];
            Linked(entries - {id}, cut, values - {order[k]}) && order[k] !in cut && id in entries
  {
    hide Distinct;
    CutMembers(order, k);
    assert order[k] in order;
  }

  lemma {:induction false} CutImage(
    entries: map<TaskId, Element>, order: seq<Element>, values: map<Element, Entry>, k: nat)
    requires Linked(entries, order, values) && k < |order|
    requires Linked(entries - {values[order[k]].mapping.taskId}, order[..k] + order[k + 1..], values - {order[k]})
    ensures Image(order[..k] + order[k + 1..], values - {order[k]}) ==
            Without(Image(order, values), values[order[k]].mapping.taskId)
  {
    LinkedIsUnique(entries, order, values);
    FilterDropsOne(Image(order, values), k);
  }

  lemma {:induction false} PushKeepsLinked(
    entries: map<TaskId, Element>, order: seq<Element>, values: map<Element, Entry>, el: Element, e: Entry)
    requires Linked(entries, order, values) && el !in order && e.mapping.taskId !in entries
    ensures Linked(entries[e.mapping.taskId := el], order + [el], values[el := e])
    ensures Image(order + [el], values[el := e]) == Image(order, values) + [e]
  {
    assert forall i :: 0 <= i < |order| ==> order[i] in order;
  }

  lemma {:induction false} SizesAgree(entries: map<TaskId, Element>, order: seq<Element>, values: map<Element, Entry>)
    requires Linked(entries, order, values)
    ensures |entries| == |order| == |Image(order, values)|
    decreases |order|
  {
    if order == [] {
      assert entries == map[];
    } else {
      var id := values[order[0]].mapping.taskId;
      CutKeepsLinked(entries, order, values, 0);
      SizesAgree(entries - {id}, order[..0] + order[1..], values - {order[0]});
      assert entries.Keys == (entries - {id}).Keys + {id};
    }
  }

  class TaskMappingCache {
    var entries: map<TaskId, Element>
    var order: seq<Element>
    var values: map<Element, Entry>  // what each list element holds
    var nextElement: Element
    const max: int
    const ttl: int

    ghost predicate Valid()
      reads this
    {
      Linked(entries, order, values) && forall el :: el in values ==> el < nextElement
    }

    ghost function Contents(): seq<Entry>
      reads this
      requires Valid()
    {
      Image(order, values)
    }

    constructor (max: int, ttl: int)
      ensures Valid() && Contents() == [] && this.max == max && this.ttl == ttl
    {
      this.max, this.ttl := max, ttl;
      entries, order, values, nextElement := map[], [], map[], 0;
    }

    method Remove(id: TaskId)
      requires Valid() && id in entries
      modifies this
      ensures Valid() && Contents() == Without(old(Contents()), id)
      ensures id !in entries && entries.Keys == old(entries.Keys) - {id}
      ensures |order| == old(|order|) - 1
    {
      var k := Position(order, entries[id]);
      CutKeepsLinked(entries, order, values, k);
      CutImage(entries, order, values, k);
      var el := order[k];
      entries, order, values := entries - {id}, order[..k] + order[k + 1..], values - {el};
    }

    method RemoveFront()
      requires Valid() && |order| > 0
      modifies this
      ensures Valid() && Contents() == old(Contents())[1..]
      ensures |entries| == old(|entries|) - 1 && entries.Keys <= old(entries.Keys)
    {
      LinkedIsUnique(entries, order, values);
      SizesAgree(entries, order, values);
      FilterDropsOne(Contents(), 0);
      assert order[0] in order;
      Remove(values[order[0]].mapping.taskId);
      SizesAgree(entries, order, values);
    }

    method Purge(now: Time)
      requires Valid()
      modifies this
      ensures Valid() && Contents() == CacheStep(old(Contents()), Purging(now), max, ttl)
    {
      while |order| > 0
        invariant Valid()
        invariant DropExpired(Contents(), now, ttl) == DropExpired(old(Contents()), now, ttl)
        decreases |Contents()|
      {
        if now - values[order[0]].cachedAt < ttl {
          return;
        }
        RemoveFront();
      }
    }

    method Publish(m: Mapping, now: Time)
      requires Valid()
      modifies this
      ensures Valid() && Contents() == CacheStep(old(Contents()), Publishing(m, now), max, ttl)
    {
      Purge(now);
      ghost var live := Contents();
      EntriesAreIds(entries, order, values, m.taskId);
      if m.taskId in entries {
        var el := entries[m.taskId];
        MoveToBack(el, Entry(m, now));
        return;
      }
      if max <= 0 {
        return;
      }
      Evict();
      Add(Entry(m, now));
    }

    /** Makes room for one more, oldest publish first. */
    method Evict()
      requires Valid() && max > 0
      modifies this
      ensures Valid() && Contents() == LastN(old(Contents()), max - 1)
      ensures entries.Keys <= old(entries.Keys)
    {
      hide Linked, Image;
      ghost var live := Contents();
      SizesAgree(entries, order, values);
      while |entries| >= max
        invariant Valid() && |entries| == |order| == |Contents()| <= |live|
        invariant entries.Keys <= old(entries.Keys)
        invariant Contents() == live[|live| - |Contents()|..]
        invariant |Contents()| >= max - 1 || |Contents()| == |live|
      {
        RemoveFront();
        SizesAgree(entries, order, values);
      }
    }

    method MoveToBack(el: Element, e: Entry)
      requires Valid() && e.mapping.taskId in entries && entries[e.mapping.taskId] == el
      modifies this
      ensures Valid() && Contents() == Without(old(Contents()), e.mapping.taskId) + [e]
    {
      var k := Position(order, el);
      CutKeepsLinked(entries, order, values, k);
      CutImage(entries, order, values, k);
      var id := e.mapping.taskId;
      PushKeepsLinked(entries - {id}, order[..k] + order[k + 1..], values - {el}, el, e);
      assert entries == (entries - {id})[id := el];
      assert (values - {el})[el := e] == values[el := e];
      values := values[el := e];
      order := order[..k] + order[k + 1..] + [el];
    }

    method Add(e: Entry)
      requires Valid() && e.mapping.taskId !in entries
      modifies this
      ensures Valid() && Contents() == old(Contents()) + [e]
    {
      var el := nextElement;
      PushKeepsLinked(entries, order, values, el, e);
      nextElement := nextElement + 1;
      order, values := order + [el], values[el := e];
      entries := entries[e.mapping.taskId := el];
    }

    method Get(id: TaskId, now: Time) returns (found: Option<Mapping>)
      requires Valid()
      modifies this
      ensures Valid() && Answers(old(Contents()), id, now, ttl, found)
      ensures Contents() == CacheStep(old(Contents()), LookingUp(id, now), max, ttl)
    {
      EntriesAreIds(entries, order, values, id);
      if id !in entries {
        WithoutAbsent(Contents(), id);
        return None;
      }
      LinkedIsUnique(entries, order, values);
      var el := entries[id];
      var k := Position(order, el);
      assert Contents()[k] == values[el];
      var entry := values[el];
      if now - entry.cachedAt >= ttl {
        Remove(id);
        return None;
      }
      return Some(entry.mapping);
    }

    method Clear()
      requires Valid()
      modifies this
      ensures Valid() && Contents() == []
    {
      entries, order, values := map[], [], map[];
    }

    method InvalidateChannel(channel: ChannelId)
      requires Valid()
      modifies this
      ensures Valid() && forall at :: Contents() == CacheStep(old(Contents()), Invalidating(channel, at), max, ttl)
    {
      var pending := entries.Keys;
      ghost var before := Contents();
      AllPending(entries, order, values, channel);
      while pending != {}
        invariant Valid() && pending <= entries.Keys
        invariant Contents() == Filter(before, Untouched(channel, pending))
        decreases pending
      {
        var id :| id in pending;
        ghost var k := Position(order, entries[id]);
        LinkedIsUnique(entries, order, values);
        assert Contents()[k] == values[entries[id]];
        InvalidateStep(before, Contents(), channel, pending, k);
        pending := pending - {id};
        if values[entries[id]].mapping.channel == channel {
          Remove(id);
        }
      }
      FilterAgree(before, Untouched(channel, pending),
                  (e: Entry) => e.mapping.channel != channel);
    }
  }

  /** The entries an invalidation has not dropped while the ids `pending` are still to visit. */
  function Untouched(channel: ChannelId, pending: set<TaskId>): Entry -> bool {
    (e: Entry) => e.mapping.channel != channel || e.mapping.taskId in pending
  }

  /** One round of the invalidation loop: dropping an id of the channel, or passing over another channel's. */
  lemma {:induction false} InvalidateStep(
    before: seq<Entry>, now: seq<Entry>, channel: ChannelId, was: set<TaskId>, k: nat)
    requires now == Filter(before, Untouched(channel, was))
    requires UniqueIds(now) && k < |now| && now[k].mapping.taskId in was
    ensures var id := now[k].mapping.taskId;
            Filter(before, Untouched(channel, was - {id})) ==
            if now[k].mapping.channel == channel then Without(now, id) else now
  {
    var id := now[k].mapping.taskId;
    var f := Untouched(channel, was);
    var g := Untouched(channel, was - {id});
    FilterFilter(before, f, g);
    FilterAgree(before, g, Both(f, g));
    FilterMembers(before, f);
    forall x | x in now ensures g(x) == (x.mapping.taskId != id || now[k].mapping.channel != channel) {
      var i :| 0 <= i < |now| && now[i] == x;
      assert f(now[i]);
    }
    if now[k].mapping.channel == channel {
      FilterAgree(now, g, (e: Entry) => e.mapping.taskId != id);
    } else {
      FilterAll(now, g);
    }
  }

  lemma {:induction false} AllPending(entries: map<TaskId, Element>, order: seq<Element>, values: map<Element, Entry>, channel: ChannelId)
    requires Linked(entries, order, values)
    ensures var s := Image(order, values);
            Filter(s, Untouched(channel, entries.Keys)) == s
  {
    var s := Image(order, values);
    forall x | x in s ensures x.mapping.taskId in entries.Keys {
      var i :| 0 <= i < |s| && s[i] == x;
      assert order[i] in order;
    }
    FilterAll(s, Untouched(channel, entries.Keys));
  }

  lemma {:induction false} EntriesAreIds(entries: map<TaskId, Element>, order: seq<Element>, values: map<Element, Entry>, id: TaskId)
    requires Linked(entries, order, values)
    ensures id in entries <==> HasId(Image(order, values), id)
  {
    var s := Image(order, values);
    if id in entries {
      assert s[Position(order, entries[id])].mapping.taskId == id;
    }
    if HasId(s, id) {
      var k :| 0 <= k < |s| && s[k].mapping.taskId == id;
      assert order[k] in order;
    }
  }

  lemma {:induction false} WithoutAbsent(s: seq<Entry>, id: TaskId)
    requires !HasId(s, id)
    ensures Without(s, id) == s
  {
    forall x | x in s ensures x.mapping.taskId != id {
      var k :| 0 <= k < |s| && s[k] == x;
    }
    FilterAll(s, (e: Entry) => e.mapping.taskId != id);
  }

  function Position(s: seq<Element>, el: Element): (k: nat)
    requires el in s
    ensures k < |s| && s[k] == el
  {
    if s[0] == el then 0 else 1 + Position(s[1..], el)
  }
}
