/** The routing cache between statements (db/db.go): a lookup publishes the row it has read, a batch publishes after its
    commit and a channel deletion invalidates after its commit, so other calls may run in between. */
module MappingRaces {
  import opened Wrappers
  import opened Sequences
  import MappingCache
  import TaskMappings

  type Mapping = MappingCache.Mapping
  type Entry = MappingCache.Entry
  type Rows = TaskMappings.Rows
  type TaskId = MappingCache.TaskId
  type ChannelId = MappingCache.ChannelId
  type Time = MappingCache.Time

  /** `publishing` and `invalidating` are what calls in flight have still to do to the cache. */
  datatype State = State(rows: Rows, cached: seq<Entry>, publishing: seq<Mapping>, invalidating: seq<ChannelId>)

  datatype Op =
    | CommitEnsure(batch: seq<Mapping>)
    | CommitRecord(mapping: Mapping)
    | CommitDelete(channel: ChannelId)
    | ReadRow(id: TaskId)
    | LookInCache(id: TaskId, now: Time)
    | Publish(k: nat, now: Time)
    | Invalidate(k: nat)
    | Purge(now: Time)
    | ClearCache

  function Drop<T>(s: seq<T>, k: nat): seq<T>
    requires k < |s|
  {
    s[..k] + s[k + 1..]
  }

  function Apply(s: State, op: Op, max: int, ttl: int): State {
    match op
    case CommitEnsure(batch) =>
      (match TaskMappings.Ensured(s.rows, batch)
       case Err(_) => s
       case Ok(w) => s.(rows := w.rows, publishing := s.publishing + w.published))
    case CommitRecord(m) =>
      (match TaskMappings.Recorded(m)
       case Err(_) => s
       case Ok(row) => s.(rows := s.rows[row.taskId := row], publishing := s.publishing + [row]))
    case CommitDelete(channel) =>
      s.(rows := map id | id in s.rows && s.rows[id].channel != channel :: s.rows[id],
         invalidating := if channel == "" then s.invalidating else s.invalidating + [channel])
    case ReadRow(id) => if id == "" || id !in s.rows then s else s.(publishing := s.publishing + [s.rows[id]])
    case LookInCache(id, now) => s.(cached := MappingCache.CacheStep(s.cached, MappingCache.LookingUp(id, now), max, ttl))
    case Publish(k, now) =>
      if k < |s.publishing| then
        s.(cached := MappingCache.Published(s.cached, s.publishing[k], now, max, ttl), publishing := Drop(s.publishing, k))
      else s
    case Invalidate(k) =>
      if k < |s.invalidating| then
        s.(cached := MappingCache.OtherChannels(s.cached, s.invalidating[k]), invalidating := Drop(s.invalidating, k))
      else s
    case Purge(now) => s.(cached := MappingCache.DropExpired(s.cached, now, ttl))
    case ClearCache => s.(cached := [])
  }

  function Run(s: State, ops: seq<Op>, max: int, ttl: int): State {
    if ops == [] then s else Apply(Run(s, ops[..|ops| - 1], max, ttl), ops[|ops| - 1], max, ttl)
  }

  // ---------------------------------------------------------------- what the cache may hold

  /** The mapping is the stored row, or a call in flight is about to replace or drop it. */
  predicate Covered(s: State, m: Mapping) {
    || TaskMappings.RowAt(s.rows, m.taskId) == Some(m)
    || m.channel in s.invalidating
    || exists k :: 0 <= k < |s.publishing| && s.publishing[k].taskId == m.taskId
  }

  /** Every cached mapping is the stored row or about to go. */
  ghost predicate Settling(s: State) { forall x :: x in s.cached ==> Covered(s, x.mapping) }

  predicate Quiet(s: State) { s.publishing == [] && s.invalidating == [] }

  /** With no call in flight, that is agreement of cache and rows. */
  lemma {:induction false} QuietMeansCoherent(s: State)
    requires Quiet(s)
    ensures Settling(s) <==> TaskMappings.Coherent(s.rows, s.cached)
  {
  }

  /** If this step publishes a mapping, the mapping is still the stored row, or will be replaced or dropped. */
  predicate PublishesCurrent(s: State, op: Op) {
    op.Publish? && op.k < |s.publishing| ==>
      Covered(s.(publishing := Drop(s.publishing, op.k)), s.publishing[op.k])
  }

  lemma {:induction false} DropKeepsOthers(s: seq<Mapping>, k: nat, j: nat)
    requires k < |s| && j < |s| && j != k
    ensures var i := if j < k then j else j - 1; i < |Drop(s, k)| && Drop(s, k)[i] == s[j]
  {
  }

  lemma {:induction false} OthersStayCovered(s: State, k: nat, m: Mapping)
    requires k < |s.publishing| && m.taskId != s.publishing[k].taskId && Covered(s, m)
    ensures Covered(s.(publishing := Drop(s.publishing, k)), m)
  {
    if j :| 0 <= j < |s.publishing| && s.publishing[j].taskId == m.taskId {
      DropKeepsOthers(s.publishing, k, j);
    }
  }

  lemma {:induction false} PublishedIsCached(cached: seq<Entry>, m: Mapping, now: Time, max: int, ttl: int)
    requires max > 0
    ensures MappingCache.Entry(m, now) in MappingCache.Published(cached, m, now, max, ttl)
  {
    var t := MappingCache.Published(cached, m, now, max, ttl);
    assert t[|t| - 1] == MappingCache.Entry(m, now);
  }

  lemma {:induction false} PublishIsSafeExactlyWhenCurrent(s: State, k: nat, now: Time, max: int, ttl: int)
    requires max > 0 && Settling(s) && k < |s.publishing|
    ensures Settling(Apply(s, Publish(k, now), max, ttl)) <==> PublishesCurrent(s, Publish(k, now))
  {
    hide Covered, MappingCache.Published;
    var t, m := Apply(s, Publish(k, now), max, ttl), s.publishing[k];
    PublishedIsCached(s.cached, m, now, max, ttl);
    CoverIgnoresCache(s.(publishing := Drop(s.publishing, k)), t.cached);
    forall x | x in t.cached && x.mapping != m ensures Covered(t, x.mapping) {
      TaskMappings.PublishedMembers(s.cached, m, now, max, ttl, x);
      OthersStayCovered(s, k, x.mapping);
    }
  }

  lemma {:induction false} CoverIgnoresCache(s: State, cached: seq<Entry>)
    ensures forall m :: Covered(s, m) <==> Covered(s.(cached := cached), m)
  {
  }

  lemma {:induction false} MoreCover(s: State, t: State, m: Mapping)
    requires Covered(s, m) && s.publishing <= t.publishing && s.invalidating <= t.invalidating
    requires TaskMappings.RowAt(s.rows, m.taskId) == Some(m) ==> Covered(t, m)
    ensures Covered(t, m)
  {
    assert forall k :: 0 <= k < |s.publishing| ==> t.publishing[k] == s.publishing[k];
    if m.channel in s.invalidating {
      var i :| 0 <= i < |s.invalidating| && s.invalidating[i] == m.channel;
      assert t.invalidating[i] == m.channel;
    }
  }

  /** A commit covers every cached mapping whose row it changes. */
  lemma {:induction false} CommitKeepsSettling(s: State, op: Op, max: int, ttl: int)
    requires Settling(s) && TaskMappings.Keyed(s.rows) && (op.CommitEnsure? || op.CommitRecord? || op.CommitDelete? || op.ReadRow?)
    ensures Settling(Apply(s, op, max, ttl))
  {
    hide TaskMappings.Ensured, TaskMappings.Recorded;
    var t := Apply(s, op, max, ttl);
    forall x | x in t.cached ensures Covered(t, x.mapping) {
      if TaskMappings.RowAt(s.rows, x.mapping.taskId) == Some(x.mapping) {
        ChangesAreAdded(s, op, x.mapping, max, ttl);
      }
      MoreCover(s, t, x.mapping);
    }
  }

  /** A commit leaves a row alone, or announces the change to the cache. */
  lemma {:induction false} ChangesAreAdded(s: State, op: Op, m: Mapping, max: int, ttl: int)
    requires TaskMappings.Keyed(s.rows) && TaskMappings.RowAt(s.rows, m.taskId) == Some(m)
    requires op.CommitEnsure? || op.CommitRecord? || op.CommitDelete? || op.ReadRow?
    ensures var t := Apply(s, op, max, ttl);
      || TaskMappings.RowAt(t.rows, m.taskId) == Some(m) || m.channel in t.invalidating
      || exists j :: |s.publishing| <= j < |t.publishing| && t.publishing[j].taskId == m.taskId
  {
    hide TaskMappings.Ensured;
    var t := Apply(s, op, max, ttl);
    match op
    case CommitEnsure(batch) =>
      if TaskMappings.Ensured(s.rows, batch).Ok? {
        TaskMappings.EnsurePublishesChanges(s.rows, batch);
        var published := TaskMappings.Ensured(s.rows, batch).value.published;
        if p :| p in published && p.taskId == m.taskId {
          var i :| 0 <= i < |published| && published[i] == p;
          assert t.publishing[|s.publishing| + i] == p;
        }
      }
    case CommitRecord(n) =>
      if TaskMappings.Recorded(n).Ok? && n.taskId == m.taskId { assert t.publishing[|s.publishing|].taskId == m.taskId; }
    case CommitDelete(channel) =>
      if m.channel == channel { assert t.invalidating[|s.invalidating|] == channel; }
    case ReadRow(_) =>
  }

  lemma {:induction false} InvalidateKeepsSettling(s: State, k: nat, max: int, ttl: int)
    requires Settling(s) && k < |s.invalidating|
    ensures Settling(Apply(s, Invalidate(k), max, ttl))
  {
    var t, channel := Apply(s, Invalidate(k), max, ttl), s.invalidating[k];
    FilterMembers(s.cached, (e: Entry) => e.mapping.channel != channel);
    hide Filter;
    forall x | x in t.cached ensures Covered(t, x.mapping) {
      if x.mapping.channel in s.invalidating {
        var i :| 0 <= i < |s.invalidating| && s.invalidating[i] == x.mapping.channel;
        assert Drop(s.invalidating, k)[if i < k then i else i - 1] == x.mapping.channel;
      }
    }
  }

  lemma {:induction false} FewerKeepSettling(s: State, cached: seq<Entry>)
    requires Settling(s) && forall x :: x in cached ==> x in s.cached
    ensures Settling(s.(cached := cached))
  {
    CoverIgnoresCache(s, cached);
    hide Covered;
  }

  lemma {:induction false} StepIsSafeExactlyWhenCurrent(s: State, op: Op, max: int, ttl: int)
    requires max > 0 && Settling(s) && TaskMappings.Keyed(s.rows)
    ensures Settling(Apply(s, op, max, ttl)) <==> PublishesCurrent(s, op)
  {
    hide Settling, Covered, TaskMappings.Keyed, TaskMappings.Ensured, TaskMappings.Recorded, MappingCache.Published, Filter;
    match op
    case Publish(k, now) => if k < |s.publishing| { PublishIsSafeExactlyWhenCurrent(s, k, now, max, ttl); }
    case Invalidate(k) => if k < |s.invalidating| { InvalidateKeepsSettling(s, k, max, ttl); }
    case LookInCache(id, now) =>
      FilterMembers(s.cached, (e: Entry) => e.mapping.taskId != id);
      FewerKeepSettling(s, MappingCache.CacheStep(s.cached, MappingCache.LookingUp(id, now), max, ttl));
    case Purge(now) =>
      TaskMappings.DropMembers(s.cached, now, ttl);
      FewerKeepSettling(s, MappingCache.DropExpired(s.cached, now, ttl));
    case ClearCache => FewerKeepSettling(s, []);
    case _ => CommitKeepsSettling(s, op, max, ttl);
  }

  lemma {:induction false} ApplyKeepsKeyed(s: State, op: Op, max: int, ttl: int)
    requires TaskMappings.Keyed(s.rows)
    ensures TaskMappings.Keyed(Apply(s, op, max, ttl).rows)
  {
    hide TaskMappings.Ensured, TaskMappings.ValidLookupId, TaskMappings.ValidId;
    match op
    case CommitEnsure(batch) => if TaskMappings.Ensured(s.rows, batch).Ok? { TaskMappings.EnsurePins(s.rows, batch); }
    case _ =>
  }

  lemma {:induction false} RunKeepsKeyed(s: State, ops: seq<Op>, max: int, ttl: int)
    requires TaskMappings.Keyed(s.rows)
    ensures TaskMappings.Keyed(Run(s, ops, max, ttl).rows)
  {
    hide Apply, TaskMappings.Keyed;
    if ops == [] {
    } else {
      RunKeepsKeyed(s, ops[..|ops| - 1], max, ttl);
      ApplyKeepsKeyed(Run(s, ops[..|ops| - 1], max, ttl), ops[|ops| - 1], max, ttl);
    }
  }

  // ---------------------------------------------------------------- whole runs

  ghost predicate AlwaysSettling(s: State, ops: seq<Op>, max: int, ttl: int) {
    forall n :: 0 <= n <= |ops| ==> Settling(Run(s, ops[..n], max, ttl))
  }

  ghost predicate EveryPublishCurrent(s: State, ops: seq<Op>, max: int, ttl: int) {
    forall i :: 0 <= i < |ops| ==> PublishesCurrent(Run(s, ops[..i], max, ttl), ops[i])
  }

  lemma {:induction false} RunLast(s: State, front: seq<Op>, op: Op, max: int, ttl: int)
    ensures Run(s, front + [op], max, ttl) == Apply(Run(s, front, max, ttl), op, max, ttl)
  {
    hide Apply;
    assert (front + [op])[..|front|] == front;
  }

  lemma {:induction false} RunsSplit(s: State, front: seq<Op>, op: Op, max: int, ttl: int)
    ensures AlwaysSettling(s, front + [op], max, ttl) <==>
            AlwaysSettling(s, front, max, ttl) && Settling(Apply(Run(s, front, max, ttl), op, max, ttl))
    ensures EveryPublishCurrent(s, front + [op], max, ttl) <==>
            EveryPublishCurrent(s, front, max, ttl) && PublishesCurrent(Run(s, front, max, ttl), op)
  {
    hide Run, Apply, PublishesCurrent, Settling;
    var ops := front + [op];
    assert forall n :: 0 <= n <= |front| ==> ops[..n] == front[..n];
    assert ops[..|front|] == front[..|front|] == front && ops[..|ops|] == ops && ops[|front|] == op;
    RunLast(s, front, op, max, ttl);
    forall i | 0 <= i < |front|
      ensures PublishesCurrent(Run(s, ops[..i], max, ttl), ops[i]) <==> PublishesCurrent(Run(s, front[..i], max, ttl), front[i])
    {
      assert ops[..i] == front[..i] && ops[i] == front[i];
    }
  }

  /** Over any interleaving of the statements of lookups, batches, overwrites and deletions, every cached mapping is at
      every moment the stored row or about to be replaced or dropped, exactly when each publish finds its mapping
      still current. */
  lemma {:induction false} SettlingExactlyWhenPublishesAreCurrent(s: State, ops: seq<Op>, max: int, ttl: int)
    requires max > 0 && Settling(s) && TaskMappings.Keyed(s.rows)
    ensures AlwaysSettling(s, ops, max, ttl) <==> EveryPublishCurrent(s, ops, max, ttl)
  {
    hide Apply, PublishesCurrent, Settling, TaskMappings.Keyed;
    if ops == [] {
    } else {
      var front, op := ops[..|ops| - 1], ops[|ops| - 1];
      assert ops == front + [op] && front[..|front|] == front;
      SettlingExactlyWhenPublishesAreCurrent(s, front, max, ttl);
      RunsSplit(s, front, op, max, ttl);
      RunKeepsKeyed(s, front, max, ttl);
      if AlwaysSettling(s, front, max, ttl) {
        assert Settling(Run(s, front[..|front|], max, ttl));
        StepIsSafeExactlyWhenCurrent(Run(s, front, max, ttl), op, max, ttl);
      }
    }
  }

  /** So whenever no call is in flight, cache and rows agree. */
  lemma {:induction false} AgreesWhenQuiet(ops: seq<Op>, max: int, ttl: int)
    requires max > 0 && EveryPublishCurrent(State(map[], [], [], []), ops, max, ttl)
    requires Quiet(Run(State(map[], [], [], []), ops, max, ttl))
    ensures var t := Run(State(map[], [], [], []), ops, max, ttl); TaskMappings.Coherent(t.rows, t.cached)
  {
    hide Run, EveryPublishCurrent;
    SettlingExactlyWhenPublishesAreCurrent(State(map[], [], [], []), ops, max, ttl);
    assert ops[..|ops|] == ops;
    QuietMeansCoherent(Run(State(map[], [], [], []), ops, max, ttl));
  }

  // ---------------------------------------------------------------- publishing in turn

  /** A later entry is for the same id. */
  predicate Followed(publishing: seq<Mapping>, k: nat) {
    k < |publishing| && exists j :: k < j < |publishing| && publishing[j].taskId == publishing[k].taskId
  }

  /** What is still to be published is the stored row, or will itself be replaced or dropped once published. */
  predicate Backed(s: State, k: nat) {
    k < |s.publishing| ==>
      var m := s.publishing[k];
      TaskMappings.RowAt(s.rows, m.taskId) == Some(m) || m.channel in s.invalidating || Followed(s.publishing, k)
  }

  ghost predicate InFlightBacked(s: State) { forall k: nat :: k < |s.publishing| ==> Backed(s, k) }

  /** Routes of one id are published in the order in which they were read or committed, equal ones in any order, and a
      deletion invalidates once the routes of its channel read before it are out. */
  predicate TakesTurn(s: State, op: Op) {
    match op
    case Publish(k, _) => k < |s.publishing| ==>
      (forall j :: 0 <= j < k ==> s.publishing[j].taskId != s.publishing[k].taskId || s.publishing[j] == s.publishing[k])
    case Invalidate(k) => k < |s.invalidating| ==>
      (forall j :: 0 <= j < |s.publishing| ==> s.publishing[j].channel != s.invalidating[k])
    case _ => true
  }

  lemma {:induction false} PublishingInTurn(s: State, k: nat, now: Time, max: int, ttl: int)
    requires InFlightBacked(s) && k < |s.publishing| && TakesTurn(s, Publish(k, now))
    ensures PublishesCurrent(s, Publish(k, now)) && InFlightBacked(Apply(s, Publish(k, now), max, ttl))
  {
    hide MappingCache.Published;
    var t := Apply(s, Publish(k, now), max, ttl);
    assert Backed(s, k);
    if j :| k < j < |s.publishing| && s.publishing[j].taskId == s.publishing[k].taskId {
      assert t.publishing[j - 1] == s.publishing[j];
    }
    forall i: nat | i < |t.publishing| ensures Backed(t, i) {
      var from := if i < k then i else i + 1;
      assert t.publishing[i] == s.publishing[from] && Backed(s, from);
      var m := t.publishing[i];
      if i < k && m.taskId == s.publishing[k].taskId {
        assert m == s.publishing[k];
        if j :| k < j < |s.publishing| && s.publishing[j].taskId == m.taskId { assert t.publishing[j - 1] == s.publishing[j]; }
      } else if j :| from < j < |s.publishing| && s.publishing[j].taskId == m.taskId {
        assert t.publishing[if j < k then j else j - 1] == s.publishing[j];
      }
    }
  }

  lemma {:induction false} InvalidatingInTurn(s: State, k: nat, max: int, ttl: int)
    requires InFlightBacked(s) && k < |s.invalidating| && TakesTurn(s, Invalidate(k))
    ensures InFlightBacked(Apply(s, Invalidate(k), max, ttl))
  {
    var t := Apply(s, Invalidate(k), max, ttl);
    forall i: nat | i < |t.publishing| ensures Backed(t, i) {
      assert Backed(s, i);
      var m := s.publishing[i];
      if m.channel in s.invalidating {
        var j :| 0 <= j < |s.invalidating| && s.invalidating[j] == m.channel;
        assert t.invalidating[if j < k then j else j - 1] == m.channel;
      }
    }
  }

  /** What a commit or a read adds is the stored row, and backs every earlier entry whose row it changes. */
  lemma {:induction false} CommitBacks(s: State, op: Op, max: int, ttl: int)
    requires InFlightBacked(s) && TaskMappings.Keyed(s.rows)
    requires op.CommitEnsure? || op.CommitRecord? || op.CommitDelete? || op.ReadRow?
    ensures InFlightBacked(Apply(s, op, max, ttl))
  {
    hide TaskMappings.Ensured, TaskMappings.Recorded;
    var t := Apply(s, op, max, ttl);
    AddedAreRows(s, op, max, ttl);
    forall k: nat | k < |t.publishing| ensures Backed(t, k) {
      if k < |s.publishing| {
        var m := s.publishing[k];
        assert Backed(s, k) && t.publishing[k] == m;
        if TaskMappings.RowAt(s.rows, m.taskId) == Some(m) {
          ChangesAreAdded(s, op, m, max, ttl);
        } else if m.channel in s.invalidating {
          assert m.channel in t.invalidating;
        } else {
          var j :| k < j < |s.publishing| && s.publishing[j].taskId == m.taskId;
          assert t.publishing[j] == s.publishing[j];
        }
      }
    }
  }

  lemma {:induction false} AddedAreRows(s: State, op: Op, max: int, ttl: int)
    requires TaskMappings.Keyed(s.rows) && (op.CommitEnsure? || op.CommitRecord? || op.CommitDelete? || op.ReadRow?)
    ensures var t := Apply(s, op, max, ttl);
      && s.publishing <= t.publishing && s.invalidating <= t.invalidating
      && forall k :: |s.publishing| <= k < |t.publishing| ==>
           TaskMappings.RowAt(t.rows, t.publishing[k].taskId) == Some(t.publishing[k])
  {
    hide TaskMappings.Ensured, TaskMappings.ValidLookupId, TaskMappings.ValidId;
    match op
    case CommitEnsure(batch) =>
      if TaskMappings.Ensured(s.rows, batch).Ok? {
        TaskMappings.EnsurePublishesChanges(s.rows, batch);
        var w := TaskMappings.Ensured(s.rows, batch).value;
        assert forall i :: 0 <= i < |w.published| ==> w.published[i] in w.published;
      }
    case _ =>
  }

  lemma {:induction false} StepInTurn(s: State, op: Op, max: int, ttl: int)
    requires InFlightBacked(s) && TaskMappings.Keyed(s.rows) && TakesTurn(s, op)
    ensures PublishesCurrent(s, op) && InFlightBacked(Apply(s, op, max, ttl))
  {
    hide InFlightBacked, PublishesCurrent, TakesTurn, TaskMappings.Keyed, TaskMappings.Ensured, TaskMappings.Recorded;
    match op
    case Publish(k, now) => if k < |s.publishing| { PublishingInTurn(s, k, now, max, ttl); } else { IdleIsCurrent(s, op); }
    case Invalidate(k) =>
      if k < |s.invalidating| { InvalidatingInTurn(s, k, max, ttl); }
      IdleIsCurrent(s, op);
    case LookInCache(id, now) => CacheBacksNothing(s, op, max, ttl);
    case Purge(now) => CacheBacksNothing(s, op, max, ttl);
    case ClearCache => CacheBacksNothing(s, op, max, ttl);
    case _ =>
      CommitBacks(s, op, max, ttl);
      IdleIsCurrent(s, op);
  }

  lemma {:induction false} IdleIsCurrent(s: State, op: Op)
    requires !op.Publish? || op.k >= |s.publishing|
    ensures PublishesCurrent(s, op)
  {
  }

  lemma {:induction false} CacheBacksNothing(s: State, op: Op, max: int, ttl: int)
    requires InFlightBacked(s) && (op.LookInCache? || op.Purge? || op.ClearCache?)
    ensures PublishesCurrent(s, op) && InFlightBacked(Apply(s, op, max, ttl))
  {
    var t := Apply(s, op, max, ttl);
    forall k: nat | k < |t.publishing| ensures Backed(t, k) { assert Backed(s, k); }
  }

  /** When no later route of an id is published, and no deletion of its channel invalidates, between a route's read or
      commit and its own publish, every publish is current, however the statements interleave otherwise. */
  lemma {:induction false} RunsInTurnStayCurrent(s: State, ops: seq<Op>, max: int, ttl: int)
    requires InFlightBacked(s) && TaskMappings.Keyed(s.rows)
    requires forall i :: 0 <= i < |ops| ==> TakesTurn(Run(s, ops[..i], max, ttl), ops[i])
    ensures EveryPublishCurrent(s, ops, max, ttl) && InFlightBacked(Run(s, ops, max, ttl))
  {
    hide Apply, PublishesCurrent, InFlightBacked, TakesTurn, TaskMappings.Keyed, Settling;
    if ops == [] {
    } else {
      var front, op := ops[..|ops| - 1], ops[|ops| - 1];
      assert ops == front + [op] && front[..|front|] == front;
      forall i | 0 <= i < |front| ensures TakesTurn(Run(s, front[..i], max, ttl), front[i]) {
        assert ops[..i] == front[..i] && ops[i] == front[i];
      }
      RunsInTurnStayCurrent(s, front, max, ttl);
      RunKeepsKeyed(s, front, max, ttl);
      RunsSplit(s, front, op, max, ttl);
      assert TakesTurn(Run(s, ops[..|front|], max, ttl), ops[|front|]);
      StepInTurn(Run(s, front, max, ttl), op, max, ttl);
    }
  }

  // ---------------------------------------------------------------- a publish out of turn

  /** A lookup reads its row, the channel is deleted and invalidated, and then the lookup publishes. */
  function OvertakenLookup(id: TaskId, channel: ChannelId, now: Time): seq<Op> {
    [ReadRow(id), CommitDelete(channel), Invalidate(0), Publish(0, now)]
  }

  /** With no call left in flight the cache then holds a route whose row is gone. */
  lemma {:induction false} DeletionOvertakesLookup(row: Mapping, now: Time, max: int, ttl: int)
    requires row.taskId != "" && row.channel != "" && max > 0
    ensures var t := Run(State(map[row.taskId := row], [], [], []), OvertakenLookup(row.taskId, row.channel, now), max, ttl);
      Quiet(t) && t.rows == map[] && t.cached == [MappingCache.Entry(row, now)]
  {
    var s, ops := State(map[row.taskId := row], [], [], []), OvertakenLookup(row.taskId, row.channel, now);
    var s1 := s.(publishing := [row]);
    assert Apply(s, ops[0], max, ttl) == s1;
    var s2 := State(map[], [], [row], [row.channel]);
    assert Apply(s1, ops[1], max, ttl) == s2;
    var s3 := State(map[], [], [row], []);
    assert Apply(s2, ops[2], max, ttl) == s3;
    assert Apply(s3, ops[3], max, ttl) == State(map[], [MappingCache.Entry(row, now)], [], []);
    RunLast(s, [], ops[0], max, ttl);
    RunLast(s, [ops[0]], ops[1], max, ttl);
    RunLast(s, [ops[0], ops[1]], ops[2], max, ttl);
    RunLast(s, [ops[0], ops[1], ops[2]], ops[3], max, ttl);
    assert [] + [ops[0]] == [ops[0]] && [ops[0]] + [ops[1]] == [ops[0], ops[1]];
    assert [ops[0], ops[1]] + [ops[2]] == [ops[0], ops[1], ops[2]] && [ops[0], ops[1], ops[2]] + [ops[3]] == ops;
  }
}
