/** Durable routing rows (db/db.go): a task id is pinned to its channel and kind by the first batch that names
    it, and the routing cache in front of the rows never answers differently from them. */
module TaskMappings {
  import opened Wrappers
  import opened Sequences
  import opened MappingCache

  const MAX_ID_BYTES: nat := 128
  const IMAGE_PREFIX: string := "imgjob_"

  datatype Error = MissingIdentity | InvalidTaskId | InvalidAlias | Conflict(taskId: TaskId)

  type Rows = map<TaskId, Mapping>

  // ---------------------------------------------------------------- ids

  predicate BadChar(c: char) { c in "/\\?#& \r\n\t" || c < ' ' || c == '\U{7F}' }

  predicate HasDots(id: string) { exists i :: 0 <= i < |id| - 1 && id[i] == '.' && id[i + 1] == '.' }

  /** A public task id or alias. */
  predicate ValidId(id: string) {
    0 < |id| <= MAX_ID_BYTES && !HasDots(id) && forall i :: 0 <= i < |id| ==> !BadChar(id[i])
  }

  predicate Prefixed(id: string) { IMAGE_PREFIX <= id }

  function Unprefixed(id: string): string {
    if Prefixed(id) then id[|IMAGE_PREFIX|..] else id
  }

  /** An image key may carry the prefix on top of a valid public id. */
  predicate ValidLookupId(id: string, kind: string) { ValidId(if kind == "image" then Unprefixed(id) else id) }

  function DefaultAlias(id: string, kind: string): string { if kind == "image" then Unprefixed(id) else id }

  /** Rows written before kinds existed are video rows. */
  function EffectiveKind(kind: string): string { if kind == "" then "video" else kind }

  predicate SameRoute(a: Mapping, b: Mapping) {
    a.channel == b.channel && EffectiveKind(a.kind) == EffectiveKind(b.kind)
  }

  // ---------------------------------------------------------------- ensuring a batch

  /** The checks on one mapping of a batch, with its alias filled in. */
  function Checked(m: Mapping): Result<Mapping, Error> {
    if m.taskId == "" || m.channel == "" then Err(MissingIdentity)
    else if !ValidLookupId(m.taskId, m.kind) then Err(InvalidTaskId)
    else
      var filled := if ValidId(m.aliasId) then m else m.(aliasId := DefaultAlias(m.taskId, m.kind));
      if !ValidId(filled.aliasId) then Err(InvalidAlias) else Ok(filled)
  }

  /** The batch in first-mention order with repeats dropped, checked left to right. */
  function Prepared(batch: seq<Mapping>): Result<seq<Mapping>, Error> {
    if batch == [] then Ok([])
    else
      match Prepared(batch[..|batch| - 1])
      case Err(e) => Err(e)
      case Ok(unique) => AddUnique(unique, batch[|batch| - 1])
  }

  function IndexOf(s: seq<Mapping>, id: TaskId): (k: nat)
    ensures k <= |s| && (forall i :: 0 <= i < k ==> s[i].taskId != id) && (k < |s| ==> s[k].taskId == id)
  {
    if s == [] || s[0].taskId == id then 0 else 1 + IndexOf(s[1..], id)
  }

  function AddUnique(unique: seq<Mapping>, m: Mapping): Result<seq<Mapping>, Error> {
    match Checked(m)
    case Err(e) => Err(e)
    case Ok(filled) =>
      var k := IndexOf(unique, m.taskId);
      if k == |unique| then Ok(unique + [filled])
      else if SameRoute(unique[k], filled) then Ok(unique)
      else Err(Conflict(m.taskId))
  }

  datatype Written = Written(rows: Rows, published: seq<Mapping>)

  /** One row of the transaction. */
  function WriteOne(w: Written, m: Mapping): Result<Written, Error> {
    if m.taskId !in w.rows then Ok(Written(w.rows[m.taskId := m], w.published + [m]))
    else
      var existing := w.rows[m.taskId];
      if !SameRoute(existing, m) then Err(Conflict(m.taskId))
      else if m.aliasId != "" && m.aliasId != existing.aliasId && Unnamed(existing) then
        var named := existing.(aliasId := m.aliasId);
        Ok(Written(w.rows[m.taskId := named], w.published + [named]))
      else Ok(w)
  }

  /** A row whose alias still says nothing beyond the id itself. */
  predicate Unnamed(m: Mapping) { m.aliasId == "" || m.aliasId == m.taskId }

  function WriteAll(rows: Rows, unique: seq<Mapping>): Result<Written, Error> {
    if unique == [] then Ok(Written(rows, []))
    else
      match WriteAll(rows, unique[..|unique| - 1])
      case Err(e) => Err(e)
      case Ok(w) => WriteOne(w, unique[|unique| - 1])
  }

  function Ensured(rows: Rows, batch: seq<Mapping>): Result<Written, Error> {
    match Prepared(batch)
    case Err(e) => Err(e)
    case Ok(unique) => WriteAll(rows, unique)
  }

  // ---------------------------------------------------------------- when a batch succeeds

  predicate WellFormed(m: Mapping) { m.taskId != "" && m.channel != "" && ValidLookupId(m.taskId, m.kind) }

  predicate Consistent(batch: seq<Mapping>) {
    forall i, j :: 0 <= i < j < |batch| && batch[i].taskId == batch[j].taskId ==> SameRoute(batch[i], batch[j])
  }

  predicate Agrees(rows: Rows, batch: seq<Mapping>) {
    forall i :: 0 <= i < |batch| && batch[i].taskId in rows ==> SameRoute(rows[batch[i].taskId], batch[i])
  }

  /** The alias check can never fail: the fallback alias of a valid key is a valid id. */
  lemma {:induction false} CheckedExactlyWhenWellFormed(m: Mapping)
    ensures Checked(m).Ok? <==> WellFormed(m)
    ensures Checked(m).Ok? ==> var f := Checked(m).value;
      f.taskId == m.taskId && SameRoute(f, m) && f.kind == m.kind && ValidId(f.aliasId)
  {
  }

  ghost predicate DistinctIds(unique: seq<Mapping>) {
    forall i, j :: 0 <= i < j < |unique| ==> unique[i].taskId != unique[j].taskId
  }

  /** Every mapping of the batch is stood for by one of the same id and route. */
  ghost predicate Covers(unique: seq<Mapping>, batch: seq<Mapping>) {
    forall i :: 0 <= i < |batch| ==> Stands(unique, batch[i])
  }

  predicate Stands(unique: seq<Mapping>, m: Mapping) {
    var k := IndexOf(unique, m.taskId); k < |unique| && SameRoute(unique[k], m)
  }

  /** Each survivor is one of the batch with its alias filled in. */
  ghost predicate DrawnFrom(unique: seq<Mapping>, batch: seq<Mapping>) {
    forall k :: 0 <= k < |unique| ==> Drawn(unique[k], batch)
  }

  ghost predicate Drawn(m: Mapping, batch: seq<Mapping>) { exists i :: 0 <= i < |batch| && Checked(batch[i]) == Ok(m) }

  lemma {:induction false} IndexOfAppend(unique: seq<Mapping>, m: Mapping, id: TaskId)
    ensures IndexOf(unique + [m], id) ==
            if IndexOf(unique, id) < |unique| then IndexOf(unique, id)
            else if m.taskId == id then |unique| else |unique| + 1
  {
    if unique == [] {
      assert [] + [m] == [m];
    } else {
      assert (unique + [m])[1..] == unique[1..] + [m];
      IndexOfAppend(unique[1..], m, id);
    }
  }

  lemma {:induction false} AppendCovers(unique: seq<Mapping>, front: seq<Mapping>, filled: Mapping, m: Mapping)
    requires Covers(unique, front) && filled.taskId == m.taskId && SameRoute(filled, m)
    requires IndexOf(unique, m.taskId) == |unique|
    ensures Covers(unique + [filled], front + [m])
  {
    hide SameRoute;
    forall i | 0 <= i < |front + [m]| ensures Stands(unique + [filled], (front + [m])[i]) {
      if i < |front| { assert Stands(unique, front[i]); }
      IndexOfAppend(unique, filled, (front + [m])[i].taskId);
    }
  }

  lemma {:induction false} MoreDrawn(unique: seq<Mapping>, front: seq<Mapping>, m: Mapping)
    requires DrawnFrom(unique, front)
    ensures DrawnFrom(unique, front + [m])
  {
    hide Checked;
    forall k | 0 <= k < |unique| ensures Drawn(unique[k], front + [m]) {
      var i :| 0 <= i < |front| && Checked(front[i]) == Ok(unique[k]);
      assert (front + [m])[i] == front[i];
    }
  }

  lemma {:induction false} AddUniqueKeeps(unique: seq<Mapping>, front: seq<Mapping>, m: Mapping)
    requires DistinctIds(unique) && Covers(unique, front) && DrawnFrom(unique, front)
    ensures AddUnique(unique, m).Ok? ==> var u := AddUnique(unique, m).value;
      DistinctIds(u) && Covers(u, front + [m]) && DrawnFrom(u, front + [m])
  {
    hide Covers, Checked, SameRoute, DrawnFrom;
    if AddUnique(unique, m).Ok? {
      CheckedExactlyWhenWellFormed(m);
      MoreDrawn(unique, front, m);
      var filled, k := Checked(m).value, IndexOf(unique, m.taskId);
      if k == |unique| {
        AppendCovers(unique, front, filled, m);
        AppendDrawn(unique, front, filled, m);
      } else {
        KeepCovers(unique, front, filled, m);
      }
    }
  }

  lemma {:induction false} KeepCovers(unique: seq<Mapping>, front: seq<Mapping>, filled: Mapping, m: Mapping)
    requires Covers(unique, front) && filled.taskId == m.taskId && SameRoute(filled, m)
    requires IndexOf(unique, m.taskId) < |unique| && SameRoute(unique[IndexOf(unique, m.taskId)], filled)
    ensures Covers(unique, front + [m])
  {
  }

  lemma {:induction false} AppendDrawn(unique: seq<Mapping>, front: seq<Mapping>, filled: Mapping, m: Mapping)
    requires DrawnFrom(unique, front + [m]) && Checked(m) == Ok(filled)
    ensures DrawnFrom(unique + [filled], front + [m])
  {
    hide Checked;
    assert (front + [m])[|front|] == m;
    assert Drawn(filled, front + [m]);
  }

  /** A batch is refused before touching a row exactly when one of its mappings is malformed or two of them
      disagree about one id. */
  lemma {:induction false} PreparedExactlyWhenConsistent(batch: seq<Mapping>)
    ensures Prepared(batch).Ok? <==> (forall i :: 0 <= i < |batch| ==> WellFormed(batch[i])) && Consistent(batch)
    ensures Prepared(batch).Ok? ==> var u := Prepared(batch).value;
      DistinctIds(u) && Covers(u, batch) && DrawnFrom(u, batch)
  {
    if batch == [] {
    } else {
      var front, last := batch[..|batch| - 1], batch[|batch| - 1];
      assert batch == front + [last];
      PreparedExactlyWhenConsistent(front);
      hide Covers, DrawnFrom, DistinctIds, MatchesAll, WellFormed, AddUnique, Consistent;
      ConsistentSplit(front, last);
      WellFormedSplit(front, last);
      if Prepared(front).Ok? {
        var u := Prepared(front).value;
        AddUniqueKeeps(u, front, last);
        AddUniqueExactly(u, front, last);
      }
    }
  }

  lemma {:induction false} WellFormedSplit(front: seq<Mapping>, m: Mapping)
    ensures var both := front + [m];
      (forall i :: 0 <= i < |both| ==> WellFormed(both[i])) <==>
      (forall i :: 0 <= i < |front| ==> WellFormed(front[i])) && WellFormed(m)
  {
    hide WellFormed;
    var both := front + [m];
    assert forall i :: 0 <= i < |front| ==> both[i] == front[i];
    assert both[|front|] == m;
  }

  lemma {:induction false} ConsistentSplit(front: seq<Mapping>, m: Mapping)
    ensures Consistent(front + [m]) <==> Consistent(front) && MatchesAll(front, m)
  {
    hide SameRoute;
    var both := front + [m];
    assert forall i :: 0 <= i < |front| ==> both[i] == front[i];
    assert both[|front|] == m;
    if Consistent(both) {
      forall i | 0 <= i < |front| && front[i].taskId == m.taskId ensures SameRoute(front[i], m) {
        assert both[i].taskId == both[|front|].taskId;
      }
    }
  }

  ghost predicate MatchesAll(front: seq<Mapping>, m: Mapping) {
    forall i :: 0 <= i < |front| && front[i].taskId == m.taskId ==> SameRoute(front[i], m)
  }

  lemma {:induction false} StandInMatches(unique: seq<Mapping>, front: seq<Mapping>, m: Mapping)
    requires Covers(unique, front) && DrawnFrom(unique, front)
    ensures var k := IndexOf(unique, m.taskId);
            MatchesAll(front, m) <==> k == |unique| || SameRoute(unique[k], m)
  {
    hide Checked, WellFormed, IndexOf;
    var k := IndexOf(unique, m.taskId);
    forall i | 0 <= i < |front| && front[i].taskId == m.taskId
      ensures k < |unique| && SameRoute(unique[k], front[i])
    {
      assert Stands(unique, front[i]);
    }
    if k < |unique| {
      assert Drawn(unique[k], front);
      var i :| 0 <= i < |front| && Checked(front[i]) == Ok(unique[k]);
      CheckedExactlyWhenWellFormed(front[i]);
    }
  }

  lemma {:induction false} AddUniqueExactly(unique: seq<Mapping>, front: seq<Mapping>, m: Mapping)
    requires Covers(unique, front) && DrawnFrom(unique, front)
    ensures AddUnique(unique, m).Ok? <==> WellFormed(m) && MatchesAll(front, m)
  {
    hide WellFormed, Checked, MatchesAll, Covers, DrawnFrom, IndexOf;
    CheckedExactlyWhenWellFormed(m);
    StandInMatches(unique, front, m);
  }

  // ---------------------------------------------------------------- what the transaction writes

  /** The row after a mapping has been ensured over the rows of before. */
  function Merged(rows: Rows, m: Mapping): Mapping {
    if m.taskId !in rows then m
    else
      var existing := rows[m.taskId];
      if Unnamed(existing) && m.aliasId != "" then existing.(aliasId := m.aliasId) else existing
  }

  function RowAfter(rows: Rows, unique: seq<Mapping>, id: TaskId): Option<Mapping> {
    var k := IndexOf(unique, id);
    if k < |unique| then Some(Merged(rows, unique[k])) else if id in rows then Some(rows[id]) else None
  }

  function RowAt(rows: Rows, id: TaskId): Option<Mapping> { if id in rows then Some(rows[id]) else None }

  ghost predicate WroteExactly(w: Written, rows: Rows, unique: seq<Mapping>) {
    forall id :: RowAt(w.rows, id) == RowAfter(rows, unique, id)
  }

  lemma {:induction false} WriteOneMerges(w: Written, m: Mapping)
    ensures WriteOne(w, m).Ok? <==> (m.taskId in w.rows ==> SameRoute(w.rows[m.taskId], m))
    ensures WriteOne(w, m).Ok? ==> WriteOne(w, m).value.rows == w.rows[m.taskId := Merged(w.rows, m)]
  {
  }

  lemma {:induction false} WriteAllMerges(rows: Rows, unique: seq<Mapping>)
    requires DistinctIds(unique)
    ensures WriteAll(rows, unique).Ok? <==> Agrees(rows, unique)
    ensures WriteAll(rows, unique).Ok? ==> WroteExactly(WriteAll(rows, unique).value, rows, unique)
  {
    if unique == [] {
    } else {
      var front, m := unique[..|unique| - 1], unique[|unique| - 1];
      assert unique == front + [m];
      WriteAllMerges(rows, front);
      AgreesSplit(rows, front, m);
      if WriteAll(rows, front).Ok? {
        AppendMerges(WriteAll(rows, front).value, rows, front, m);
      }
    }
  }

  lemma {:induction false} AgreesSplit(rows: Rows, front: seq<Mapping>, m: Mapping)
    ensures Agrees(rows, front + [m]) <==> Agrees(rows, front) && (m.taskId in rows ==> SameRoute(rows[m.taskId], m))
  {
    hide SameRoute;
    var both := front + [m];
    assert forall i :: 0 <= i < |front| ==> both[i] == front[i];
    assert both[|front|] == m;
  }

  lemma {:induction false} AppendMerges(w: Written, rows: Rows, front: seq<Mapping>, m: Mapping)
    requires DistinctIds(front + [m]) && WroteExactly(w, rows, front)
    ensures WriteOne(w, m).Ok? <==> (m.taskId in rows ==> SameRoute(rows[m.taskId], m))
    ensures WriteOne(w, m).Ok? ==> WroteExactly(WriteOne(w, m).value, rows, front + [m])
  {
    hide SameRoute, DistinctIds, WriteOne;
    NotBefore(front, m);
    WriteOneMerges(w, m);
    assert RowAt(w.rows, m.taskId) == RowAfter(rows, front, m.taskId);
    if WriteOne(w, m).Ok? {
      var after := WriteOne(w, m).value;
      forall id ensures RowAt(after.rows, id) == RowAfter(rows, front + [m], id) {
        IndexOfAppend(front, m, id);
        assert RowAt(w.rows, id) == RowAfter(rows, front, id);
      }
    }
  }

  lemma {:induction false} NotBefore(front: seq<Mapping>, m: Mapping)
    requires DistinctIds(front + [m])
    ensures IndexOf(front, m.taskId) == |front|
  {
    var both := front + [m];
    forall i | 0 <= i < |front| ensures front[i].taskId != m.taskId {
      assert both[i] == front[i] && both[|front|] == m;
    }
  }

  /** A batch goes through exactly when every mapping is well formed, no two of them disagree about an id, and
      none disagrees with a stored row; otherwise nothing is written. */
  lemma {:induction false} EnsureSucceedsExactlyWhen(rows: Rows, batch: seq<Mapping>)
    ensures Ensured(rows, batch).Ok? <==>
            (forall i :: 0 <= i < |batch| ==> WellFormed(batch[i])) && Consistent(batch) && Agrees(rows, batch)
  {
    PreparedExactlyWhenConsistent(batch);
    if Prepared(batch).Ok? {
      var u := Prepared(batch).value;
      WriteAllMerges(rows, u);
      AgreesAlike(rows, u, batch);
    }
  }

  lemma {:induction false} AgreesAlike(rows: Rows, u: seq<Mapping>, batch: seq<Mapping>)
    requires Covers(u, batch) && DrawnFrom(u, batch)
    ensures Agrees(rows, u) <==> Agrees(rows, batch)
  {
    hide WellFormed, Checked, IndexOf;
    if Agrees(rows, u) {
      forall i | 0 <= i < |batch| && batch[i].taskId in rows ensures SameRoute(rows[batch[i].taskId], batch[i]) {
        assert Stands(u, batch[i]);
      }
    }
    if Agrees(rows, batch) {
      forall k | 0 <= k < |u| && u[k].taskId in rows ensures SameRoute(rows[u[k].taskId], u[k]) {
        assert Drawn(u[k], batch);
        var i :| 0 <= i < |batch| && Checked(batch[i]) == Ok(u[k]);
        CheckedExactlyWhenWellFormed(batch[i]);
      }
    }
  }

  /** What a later row may still change of an earlier one: only an alias that said nothing. */
  predicate Pinned(before: Mapping, after: Mapping) {
    && after.taskId == before.taskId && after.channel == before.channel && after.kind == before.kind
    && (after.aliasId == before.aliasId || Unnamed(before))
  }

  ghost predicate AllPinned(before: Rows, after: Rows) {
    forall id :: id in before ==> id in after && Pinned(before[id], after[id])
  }

  predicate Keyed(rows: Rows) { forall id :: id in rows ==> rows[id].taskId == id && rows[id].channel != "" }

  lemma {:induction false} EnsurePins(rows: Rows, batch: seq<Mapping>)
    requires Keyed(rows) && Ensured(rows, batch).Ok?
    ensures var after := Ensured(rows, batch).value.rows;
            AllPinned(rows, after) && Keyed(after) && Routed(after, batch)
  {
    hide Prepared, WriteAll, Merged, Consistent, Agrees, WellFormed, Checked, DistinctIds;
    PreparedExactlyWhenConsistent(batch);
    var u := Prepared(batch).value;
    WriteAllMerges(rows, u);
    var after := Ensured(rows, batch).value.rows;
    forall id | id in rows ensures id in after && Pinned(rows[id], after[id]) {
      assert RowAt(after, id) == RowAfter(rows, u, id);
      if IndexOf(u, id) < |u| { MergedIsPinned(rows, u[IndexOf(u, id)]); }
    }
    forall id | id in after ensures after[id].taskId == id && after[id].channel != "" {
      assert RowAt(after, id) == RowAfter(rows, u, id);
      if IndexOf(u, id) < |u| { DrawnMerges(rows, u, IndexOf(u, id), batch); }
    }
    RoutedAfter(rows, u, batch, after);
  }

  ghost predicate Routed(rows: Rows, batch: seq<Mapping>) {
    forall i :: 0 <= i < |batch| ==> batch[i].taskId in rows && SameRoute(rows[batch[i].taskId], batch[i])
  }

  lemma {:induction false} MergedIsPinned(rows: Rows, m: Mapping)
    requires Keyed(rows)
    ensures m.taskId in rows ==> Pinned(rows[m.taskId], Merged(rows, m))
    ensures m.taskId in rows && SameRoute(rows[m.taskId], m) ==> SameRoute(Merged(rows, m), m)
    ensures Merged(rows, m).taskId == m.taskId
    ensures m.channel != "" ==> Merged(rows, m).channel != ""
  {
  }

  lemma {:induction false} DrawnMerges(rows: Rows, u: seq<Mapping>, k: nat, batch: seq<Mapping>)
    requires Keyed(rows) && DrawnFrom(u, batch) && k < |u|
    ensures Merged(rows, u[k]).taskId == u[k].taskId && Merged(rows, u[k]).channel != ""
  {
    hide Merged, IndexOf, ValidLookupId, ValidId;
    assert Drawn(u[k], batch);
    var i :| 0 <= i < |batch| && Checked(batch[i]) == Ok(u[k]);
    MergedIsPinned(rows, u[k]);
  }

  lemma {:induction false} RoutedAfter(rows: Rows, u: seq<Mapping>, batch: seq<Mapping>, after: Rows)
    requires Keyed(rows) && Covers(u, batch) && Agrees(rows, u)
    requires forall id :: RowAt(after, id) == RowAfter(rows, u, id)
    ensures Routed(after, batch)
  {
    hide Merged, IndexOf;
    forall i | 0 <= i < |batch| ensures batch[i].taskId in after && SameRoute(after[batch[i].taskId], batch[i]) {
      assert Stands(u, batch[i]);
      var k := IndexOf(u, batch[i].taskId);
      assert RowAt(after, batch[i].taskId) == RowAfter(rows, u, batch[i].taskId);
      MergedIsPinned(rows, u[k]);
      MergedNew(rows, u[k]);
    }
  }

  lemma {:induction false} MergedNew(rows: Rows, m: Mapping)
    ensures m.taskId !in rows ==> Merged(rows, m) == m
  {
  }

  /** Repeating a batch that went through succeeds, writes nothing and publishes nothing. */
  lemma {:induction false} EnsureIsIdempotent(rows: Rows, batch: seq<Mapping>)
    requires Ensured(rows, batch).Ok?
    ensures var after := Ensured(rows, batch).value.rows; Ensured(after, batch) == Ok(Written(after, []))
  {
    hide WriteAll, Merged, Consistent, DistinctIds, Covers, DrawnFrom;
    PreparedExactlyWhenConsistent(batch);
    var u := Prepared(batch).value;
    hide Prepared;
    WriteAllMerges(rows, u);
    var after := Ensured(rows, batch).value.rows;
    forall k | 0 <= k < |u| ensures Settled(after, u[k]) {
      IndexOfDistinct(u, k);
      assert RowAt(after, u[k].taskId) == RowAfter(rows, u, u[k].taskId);
      MergedSettles(rows, u[k], after);
    }
    WriteSettled(after, u);
  }

  predicate Settled(rows: Rows, m: Mapping) {
    && m.taskId in rows && SameRoute(rows[m.taskId], m)
    && (Unnamed(rows[m.taskId]) ==> m.aliasId == rows[m.taskId].aliasId || m.aliasId == "")
  }

  lemma {:induction false} IndexOfDistinct(u: seq<Mapping>, k: nat)
    requires DistinctIds(u) && k < |u|
    ensures IndexOf(u, u[k].taskId) == k
  {
  }

  lemma {:induction false} MergedSettles(rows: Rows, m: Mapping, after: Rows)
    requires m.taskId in after && after[m.taskId] == Merged(rows, m)
    requires m.taskId in rows ==> SameRoute(rows[m.taskId], m)
    ensures Settled(after, m)
  {
  }

  lemma {:induction false} WriteSettled(rows: Rows, u: seq<Mapping>)
    requires forall k :: 0 <= k < |u| ==> Settled(rows, u[k])
    ensures WriteAll(rows, u) == Ok(Written(rows, []))
  {
    if u == [] {
    } else {
      WriteSettled(rows, u[..|u| - 1]);
      assert Settled(rows, u[|u| - 1]);
    }
  }

  // ---------------------------------------------------------------- the cache in front of the rows

  /** Every cached mapping is the stored row. */
  ghost predicate Coherent(rows: Rows, cached: seq<Entry>) {
    forall x :: x in cached ==> RowAt(rows, x.mapping.taskId) == Some(x.mapping)
  }

  /** Everything published is the row as written, and every changed row is published. */
  ghost predicate PublishesChanges(w: Written, rows: Rows) {
    && (forall p :: p in w.published ==> RowAt(w.rows, p.taskId) == Some(p))
    && (forall id :: (forall p :: p in w.published ==> p.taskId != id) ==> RowAt(w.rows, id) == RowAt(rows, id))
  }

  ghost predicate PublishedAreOf(w: Written, unique: seq<Mapping>) {
    forall p :: p in w.published ==> IndexOf(unique, p.taskId) < |unique|
  }

  predicate OwnIds(rows: Rows) { forall id :: id in rows ==> rows[id].taskId == id }

  lemma {:induction false} WriteAllPublishes(rows: Rows, unique: seq<Mapping>)
    requires DistinctIds(unique) && OwnIds(rows)
    ensures WriteAll(rows, unique).Ok? ==> var w := WriteAll(rows, unique).value;
      OwnIds(w.rows) && PublishesChanges(w, rows) && PublishedAreOf(w, unique)
  {
    if unique == [] {
    } else {
      var front, m := unique[..|unique| - 1], unique[|unique| - 1];
      assert unique == front + [m];
      WriteAllPublishes(rows, front);
      if WriteAll(rows, front).Ok? && WriteAll(rows, unique).Ok? {
        hide DistinctIds, PublishesChanges, OwnIds, PublishedAreOf;
        NotBefore(front, m);
        var w := WriteAll(rows, front).value;
        WriteOneShape(w, m);
        PassedOver(w, front, m);
        if WriteOne(w, m) != Ok(w) { OnePublishes(w, rows, front, m, Merged(w.rows, m)); }
      }
    }
  }

  lemma {:induction false} PassedOver(w: Written, front: seq<Mapping>, m: Mapping)
    requires PublishedAreOf(w, front)
    ensures PublishedAreOf(w, front + [m])
  {
    hide IndexOf;
    forall p | p in w.published ensures IndexOf(front + [m], p.taskId) < |front + [m]| {
      IndexOfAppend(front, m, p.taskId);
    }
  }

  lemma {:induction false} OnePublishes(w: Written, rows: Rows, front: seq<Mapping>, m: Mapping, row: Mapping)
    requires PublishesChanges(w, rows) && PublishedAreOf(w, front) && IndexOf(front, m.taskId) == |front|
    requires row.taskId == m.taskId && OwnIds(w.rows)
    ensures var w2 := Written(w.rows[m.taskId := row], w.published + [row]);
      OwnIds(w2.rows) && PublishesChanges(w2, rows) && PublishedAreOf(w2, front + [m])
  {
    hide IndexOf;
    var w2 := Written(w.rows[m.taskId := row], w.published + [row]);
    forall p | p in w2.published
      ensures RowAt(w2.rows, p.taskId) == Some(p) && IndexOf(front + [m], p.taskId) < |front + [m]|
    {
      IndexOfAppend(front, m, p.taskId);
      assert p in w.published || p == row;
    }
    forall id | forall p :: p in w2.published ==> p.taskId != id ensures RowAt(w2.rows, id) == RowAt(rows, id) {
      assert forall p :: p in w.published ==> p in w2.published;
      assert row in w2.published;
    }
  }

  /** A write either leaves everything alone or stores the merged row and publishes it. */
  lemma {:induction false} WriteOneShape(w: Written, m: Mapping)
    requires OwnIds(w.rows) && WriteOne(w, m).Ok?
    ensures var row := Merged(w.rows, m);
      row.taskId == m.taskId &&
      (WriteOne(w, m) == Ok(w) || WriteOne(w, m) == Ok(Written(w.rows[m.taskId := row], w.published + [row])))
  {
  }

  /** A batch publishes every row it changes, as stored. */
  lemma {:induction false} EnsurePublishesChanges(rows: Rows, batch: seq<Mapping>)
    requires OwnIds(rows) && Ensured(rows, batch).Ok?
    ensures PublishesChanges(Ensured(rows, batch).value, rows)
  {
    hide WriteAll, Covers, DrawnFrom, Consistent, WellFormed, PublishesChanges;
    PreparedExactlyWhenConsistent(batch);
    var u := Prepared(batch).value;
    hide Prepared;
    WriteAllPublishes(rows, u);
  }

  // ---------------------------------------------------------------- rows and cache together

  datatype State = State(rows: Rows, cached: seq<Entry>)

  function PublishAll(s: seq<Entry>, published: seq<Mapping>, now: Time, max: int, ttl: int): seq<Entry> {
    if published == [] then s
    else Published(PublishAll(s, published[..|published| - 1], now, max, ttl), published[|published| - 1], now, max, ttl)
  }

  function EnsureStep(s: State, batch: seq<Mapping>, now: Time, max: int, ttl: int): (State, Option<Error>) {
    match Ensured(s.rows, batch)
    case Err(e) => (s, Some(e))
    case Ok(w) => (State(w.rows, PublishAll(s.cached, w.published, now, max, ttl)), None)
  }

  /** The row the older writer stores. */
  function Recorded(m: Mapping): Result<Mapping, Error> {
    if m.taskId == "" || m.channel == "" then Err(MissingIdentity)
    else if !ValidLookupId(m.taskId, m.kind) then Err(InvalidTaskId)
    else
      var filled := if m.aliasId == "" then m.(aliasId := DefaultAlias(m.taskId, m.kind)) else m;
      if !ValidId(filled.aliasId) then Err(InvalidAlias) else Ok(filled)
  }

  /** The older writer, which may repoint an id. */
  function RecordStep(s: State, m: Mapping, now: Time, max: int, ttl: int): (State, Option<Error>) {
    match Recorded(m)
    case Err(e) => (s, Some(e))
    case Ok(row) => (State(s.rows[m.taskId := row], Published(s.cached, row, now, max, ttl)), None)
  }

  function DeleteStep(s: State, channel: ChannelId): State {
    State(map id | id in s.rows && s.rows[id].channel != channel :: s.rows[id],
          if channel == "" then s.cached else OtherChannels(s.cached, channel))
  }

  /** The live entry for an id, if any. */
  function FindLive(s: seq<Entry>, id: TaskId, now: Time, ttl: int): Option<Mapping> {
    if s == [] then None
    else if s[0].mapping.taskId == id && !Expired(s[0], now, ttl) then Some(s[0].mapping)
    else FindLive(s[1..], id, now, ttl)
  }

  /** An exact lookup: the cache first, then the row, which it publishes. */
  function LookupStep(s: State, id: TaskId, now: Time, max: int, ttl: int): (State, Option<Mapping>) {
    var cached := CacheStep(s.cached, LookingUp(id, now), max, ttl);
    match FindLive(s.cached, id, now, ttl)
    case Some(m) => (s.(cached := cached), Some(m))
    case None =>
      if id !in s.rows then (s.(cached := cached), None)
      else
        var row := s.rows[id];
        (s.(cached := if row.taskId == "" || row.channel == "" then cached else Published(cached, row, now, max, ttl)), Some(row))
  }

  /** A lookup for one kind of task; images also answer under their prefixed key. */
  function LookupForKindStep(s: State, id: TaskId, kind: string, now: Time, max: int, ttl: int): (State, Option<Mapping>) {
    if id == "" || kind == "" then (s, None)
    else
      var (s1, m) := LookupStep(s, id, now, max, ttl);
      if m.Some? && EffectiveKind(m.value.kind) == kind then (s1, m)
      else if kind != "image" || Prefixed(id) then (s1, None)
      else
        var (s2, legacy) := LookupStep(s1, IMAGE_PREFIX + id, now, max, ttl);
        (s2, if legacy.Some? && EffectiveKind(legacy.value.kind) == kind then legacy else None)
  }

  datatype Op =
    | Ensure(batch: seq<Mapping>)
    | Record(mapping: Mapping)
    | DeleteChannel(channel: ChannelId)
    | Lookup(id: TaskId)
    | LookupForKind(id: TaskId, kind: string)
    | Purge
    | ClearCache

  function Apply(s: State, op: Op, now: Time, max: int, ttl: int): State {
    match op
    case Ensure(batch) => EnsureStep(s, batch, now, max, ttl).0
    case Record(m) => RecordStep(s, m, now, max, ttl).0
    case DeleteChannel(channel) => DeleteStep(s, channel)
    case Lookup(id) => LookupStep(s, id, now, max, ttl).0
    case LookupForKind(id, kind) => LookupForKindStep(s, id, kind, now, max, ttl).0
    case Purge => s.(cached := DropExpired(s.cached, now, ttl))
    case ClearCache => s.(cached := [])
  }

  ghost predicate Inv(s: State) { Keyed(s.rows) && Coherent(s.rows, s.cached) }

  lemma {:induction false} PublishedMembers(s: seq<Entry>, m: Mapping, now: Time, max: int, ttl: int, x: Entry)
    requires x in Published(s, m, now, max, ttl)
    ensures x.mapping == m || (x in s && x.mapping.taskId != m.taskId)
  {
    DropMembers(s, now, ttl);
    var live := DropExpired(s, now, ttl);
    if HasId(live, m.taskId) {
      FilterMembers(live, (e: Entry) => e.mapping.taskId != m.taskId);
    } else if x in live {
      var k :| 0 <= k < |live| && live[k] == x;
    }
  }

  lemma {:induction false} DropMembers(s: seq<Entry>, now: Time, ttl: int)
    ensures forall x :: x in DropExpired(s, now, ttl) ==> x in s
  {
    if s == [] {
    } else {
      DropMembers(s[1..], now, ttl);
    }
  }

  lemma {:induction false} PublishAllMembers(s: seq<Entry>, ps: seq<Mapping>, now: Time, max: int, ttl: int, x: Entry)
    requires x in PublishAll(s, ps, now, max, ttl)
    ensures x.mapping in ps || (x in s && forall p :: p in ps ==> p.taskId != x.mapping.taskId)
  {
    hide Published;
    if ps == [] {
    } else {
      var front, last := ps[..|ps| - 1], ps[|ps| - 1];
      assert ps == front + [last];
      PublishedMembers(PublishAll(s, front, now, max, ttl), last, now, max, ttl, x);
      if x.mapping != last { PublishAllMembers(s, front, now, max, ttl, x); }
    }
  }

  lemma {:induction false} EnsureKeepsInv(s: State, batch: seq<Mapping>, now: Time, max: int, ttl: int)
    requires Inv(s)
    ensures Inv(EnsureStep(s, batch, now, max, ttl).0)
  {
    hide WriteAll, PublishAll, DistinctIds, Covers, DrawnFrom, AllPinned, Routed, Consistent, WellFormed;
    if Ensured(s.rows, batch).Ok? {
      PreparedExactlyWhenConsistent(batch);
      EnsurePins(s.rows, batch);
      var u := Prepared(batch).value;
      hide Prepared;
      WriteAllPublishes(s.rows, u);
      var w := WriteAll(s.rows, u).value;
      var cached := PublishAll(s.cached, w.published, now, max, ttl);
      forall x | x in cached ensures RowAt(w.rows, x.mapping.taskId) == Some(x.mapping) {
        PublishAllMembers(s.cached, w.published, now, max, ttl, x);
      }
    }
  }

  lemma {:induction false} PublishRowKeepsCoherent(rows: Rows, cached: seq<Entry>, m: Mapping, now: Time, max: int, ttl: int)
    requires RowAt(rows, m.taskId) == Some(m)
    requires forall x :: x in cached && x.mapping.taskId != m.taskId ==> RowAt(rows, x.mapping.taskId) == Some(x.mapping)
    ensures Coherent(rows, Published(cached, m, now, max, ttl))
  {
    hide Published;
    forall x | x in Published(cached, m, now, max, ttl) ensures RowAt(rows, x.mapping.taskId) == Some(x.mapping) {
      PublishedMembers(cached, m, now, max, ttl, x);
    }
  }

  lemma {:induction false} FewerStaysCoherent(rows: Rows, cached: seq<Entry>, fewer: seq<Entry>)
    requires Coherent(rows, cached) && forall x :: x in fewer ==> x in cached
    ensures Coherent(rows, fewer)
  {
  }

  lemma {:induction false} RecordKeepsInv(s: State, m: Mapping, now: Time, max: int, ttl: int)
    requires Inv(s)
    ensures Inv(RecordStep(s, m, now, max, ttl).0)
  {
    hide Published, ValidLookupId, ValidId;
    var r := RecordStep(s, m, now, max, ttl);
    if r.1.None? {
      PublishRowKeepsCoherent(r.0.rows, s.cached, r.0.rows[m.taskId], now, max, ttl);
    }
  }

  lemma {:induction false} DeleteKeepsInv(s: State, channel: ChannelId)
    requires Inv(s)
    ensures Inv(DeleteStep(s, channel))
  {
    FilterMembers(s.cached, (e: Entry) => e.mapping.channel != channel);
    hide Filter;
  }

  lemma {:induction false} FindLiveFinds(s: seq<Entry>, id: TaskId, now: Time, ttl: int)
    ensures match FindLive(s, id, now, ttl)
      case Some(m) => HasLive(s, id, now, ttl) && exists x :: x in s && x.mapping == m && m.taskId == id
      case None => !HasLive(s, id, now, ttl)
  {
    if s == [] {
    } else {
      FindLiveFinds(s[1..], id, now, ttl);
      if s[0].mapping.taskId == id && !Expired(s[0], now, ttl) {
        assert s[0] in s;
      } else if HasLive(s, id, now, ttl) {
        var k :| 0 <= k < |s| && s[k].mapping.taskId == id && !Expired(s[k], now, ttl);
        assert s[1..][k - 1] == s[k];
      } else {
        assert forall k :: 0 <= k < |s[1..]| ==> s[1..][k] == s[k + 1];
      }
    }
  }

  /** An exact lookup through the cache answers with the stored row, and keeps rows and cache in agreement. */
  lemma {:induction false} CachedLookupIsRowLookup(s: State, id: TaskId, now: Time, max: int, ttl: int)
    requires Inv(s)
    ensures LookupStep(s, id, now, max, ttl).1 == RowAt(s.rows, id)
    ensures Inv(LookupStep(s, id, now, max, ttl).0) && LookupStep(s, id, now, max, ttl).0.rows == s.rows
  {
    hide Published, FindLive, HasLive, Filter;
    FindLiveFinds(s.cached, id, now, ttl);
    FilterMembers(s.cached, (e: Entry) => e.mapping.taskId != id);
    var cached := CacheStep(s.cached, LookingUp(id, now), max, ttl);
    FewerStaysCoherent(s.rows, s.cached, cached);
    if FindLive(s.cached, id, now, ttl).None? && id in s.rows {
      PublishRowKeepsCoherent(s.rows, cached, s.rows[id], now, max, ttl);
    }
  }

  /** What a kind lookup should answer, read straight from the rows. */
  function RowForKind(rows: Rows, id: TaskId, kind: string): Option<Mapping> {
    if kind != "" && id in rows && EffectiveKind(rows[id].kind) == kind && id != "" then Some(rows[id])
    else if kind == "image" && id != "" && !Prefixed(id) && IMAGE_PREFIX + id in rows
            && EffectiveKind(rows[IMAGE_PREFIX + id].kind) == kind then Some(rows[IMAGE_PREFIX + id])
    else None
  }

  lemma {:induction false} KindLookupIsRowLookup(s: State, id: TaskId, kind: string, now: Time, max: int, ttl: int)
    requires Inv(s)
    ensures LookupForKindStep(s, id, kind, now, max, ttl).1 == RowForKind(s.rows, id, kind)
    ensures var t := LookupForKindStep(s, id, kind, now, max, ttl).0; Inv(t) && t.rows == s.rows
  {
    hide LookupStep, Inv;
    CachedLookupIsRowLookup(s, id, now, max, ttl);
    CachedLookupIsRowLookup(LookupStep(s, id, now, max, ttl).0, IMAGE_PREFIX + id, now, max, ttl);
  }

  lemma {:induction false} ApplyKeepsInv(s: State, op: Op, now: Time, max: int, ttl: int)
    requires Inv(s)
    ensures Inv(Apply(s, op, now, max, ttl))
  {
    hide EnsureStep, RecordStep, DeleteStep, LookupStep, LookupForKindStep, RowForKind;
    match op
    case Ensure(batch) => EnsureKeepsInv(s, batch, now, max, ttl);
    case Record(m) => RecordKeepsInv(s, m, now, max, ttl);
    case DeleteChannel(channel) => DeleteKeepsInv(s, channel);
    case Lookup(id) => CachedLookupIsRowLookup(s, id, now, max, ttl);
    case LookupForKind(id, kind) => KindLookupIsRowLookup(s, id, kind, now, max, ttl);
    case Purge => DropMembers(s.cached, now, ttl);
    case ClearCache =>
  }

  // ---------------------------------------------------------------- over whole runs

  datatype Event = Event(op: Op, now: Time)

  function Run(s: State, events: seq<Event>, max: int, ttl: int): State {
    if events == [] then s
    else Apply(Run(s, events[..|events| - 1], max, ttl), events[|events| - 1].op, events[|events| - 1].now, max, ttl)
  }

  lemma {:induction false} RunKeepsInv(s: State, events: seq<Event>, max: int, ttl: int)
    requires Inv(s)
    ensures Inv(Run(s, events, max, ttl))
  {
    hide Apply;
    if events == [] {
    } else {
      RunKeepsInv(s, events[..|events| - 1], max, ttl);
      hide Inv;
      ApplyKeepsInv(Run(s, events[..|events| - 1], max, ttl), events[|events| - 1].op, events[|events| - 1].now, max, ttl);
    }
  }

  /** Whatever was written, deleted, looked up or purged before, by calls that run one after another, a lookup through
      the cache and a direct read of the rows agree. `MappingRaces` is about calls that overlap. */
  lemma {:induction false} CacheNeverDisagrees(
    start: State, events: seq<Event>, max: int, ttl: int, id: TaskId, kind: string, now: Time)
    requires Inv(start)
    ensures var s := Run(start, events, max, ttl);
      && LookupStep(s, id, now, max, ttl).1 == RowAt(s.rows, id)
      && LookupForKindStep(s, id, kind, now, max, ttl).1 == RowForKind(s.rows, id, kind)
  {
    hide Inv, LookupStep, LookupForKindStep, RowForKind, RowAt;
    RunKeepsInv(start, events, max, ttl);
    var s := Run(start, events, max, ttl);
    CachedLookupIsRowLookup(s, id, now, max, ttl);
    KindLookupIsRowLookup(s, id, kind, now, max, ttl);
  }

  /** Steps that cannot take a row of this channel away or repoint it. */
  predicate Respects(op: Op, channel: ChannelId) { !op.Record? && op != DeleteChannel(channel) }

  lemma {:induction false} ApplyPins(s: State, op: Op, now: Time, max: int, ttl: int, id: TaskId)
    requires Inv(s) && id in s.rows && Respects(op, s.rows[id].channel)
    ensures var t := Apply(s, op, now, max, ttl); id in t.rows && Pinned(s.rows[id], t.rows[id])
  {
    hide Published, Ensured, LookupStep, PublishAll;
    match op
    case Ensure(batch) => if Ensured(s.rows, batch).Ok? { EnsurePins(s.rows, batch); }
    case Lookup(other) => CachedLookupIsRowLookup(s, other, now, max, ttl);
    case LookupForKind(other, kind) => KindLookupIsRowLookup(s, other, kind, now, max, ttl);
    case _ =>
  }

  /** Over any run of batches, lookups and deletions of other channels, a stored task id keeps its channel and
      kind, and an alias that says more than the id itself never changes again. */
  lemma {:induction false} PinnedForGood(s: State, events: seq<Event>, max: int, ttl: int, id: TaskId)
    requires Inv(s) && id in s.rows
    requires forall i :: 0 <= i < |events| ==> Respects(events[i].op, s.rows[id].channel)
    ensures var t := Run(s, events, max, ttl); id in t.rows && Pinned(s.rows[id], t.rows[id])
  {
    hide Apply, Inv;
    if events == [] {
    } else {
      var front, last := events[..|events| - 1], events[|events| - 1];
      PinnedForGood(s, front, max, ttl, id);
      RunKeepsInv(s, front, max, ttl);
      ApplyPins(Run(s, front, max, ttl), last.op, last.now, max, ttl, id);
    }
  }

  // ---------------------------------------------------------------- the writers and readers, in place

  class TaskMappingStore {
    var rows: Rows
    const cache: TaskMappingCache

    ghost predicate Valid()
      reads this, cache
    {
      cache.Valid()
    }

    ghost function Contents(): State
      reads this, cache
      requires Valid()
    {
      State(rows, cache.Contents())
    }

    constructor (max: int, ttl: int)
      ensures Valid() && Contents() == State(map[], []) && cache.max == max && cache.ttl == ttl && fresh(cache)
    {
      rows := map[];
      cache := new TaskMappingCache(max, ttl);
    }

    method PublishEach(published: seq<Mapping>, now: Time)
      requires Valid()
      modifies cache
      ensures Valid() && cache.Contents() == PublishAll(old(cache.Contents()), published, now, cache.max, cache.ttl)
    {
      for i := 0 to |published|
        invariant Valid() && cache.Contents() == PublishAll(old(cache.Contents()), published[..i], now, cache.max, cache.ttl)
      {
        assert published[..i + 1][..i] == published[..i];
        cache.Publish(published[i], now);
      }
      assert published[..|published|] == published;
    }

    method Ensure(batch: seq<Mapping>, now: Time) returns (err: Option<Error>)
      requires Valid()
      modifies this, cache
      ensures Valid() && (Contents(), err) == EnsureStep(old(Contents()), batch, now, cache.max, cache.ttl)
    {
      var unique, problem := Prepare(batch);
      if problem.Some? {
        return problem;
      }
      if unique == [] {
        return None;
      }
      var inserted: seq<Mapping> := [];
      var table := rows;  // the transaction's own view
      for i := 0 to |unique|
        invariant rows == old(rows) && Valid() && cache.Contents() == old(cache.Contents())
        invariant WriteAll(rows, unique[..i]) == Ok(Written(table, inserted))
      {
        assert unique[..i + 1][..i] == unique[..i];
        var m := unique[i];
        if m.taskId in table {
          var existing := table[m.taskId];
          if existing.channel != m.channel || EffectiveKind(existing.kind) != EffectiveKind(m.kind) {
            ConflictEndsIt(rows, unique, i + 1, Conflict(m.taskId));
            return Some(Conflict(m.taskId));  // the transaction rolls back
          }
          if m.aliasId != "" && m.aliasId != existing.aliasId && (existing.aliasId == "" || existing.aliasId == existing.taskId) {
            existing := existing.(aliasId := m.aliasId);
            table := table[m.taskId := existing];
            inserted := inserted + [existing];
          }
        } else {
          table := table[m.taskId := m];
          inserted := inserted + [m];
        }
      }
      assert unique[..|unique|] == unique;
      rows := table;
      PublishEach(inserted, now);
      return None;
    }

    /** The checks and the de-duplication before the transaction. */
    method Prepare(batch: seq<Mapping>) returns (unique: seq<Mapping>, problem: Option<Error>)
      ensures Prepared(batch) == if problem.None? then Ok(unique) else Err(problem.value)
    {
      hide Checked, IndexOf, Indexes;
      unique := [];
      var byTaskId: map<TaskId, nat> := map[];
      NothingIndexed();
      for i := 0 to |batch|
        invariant Prepared(batch[..i]) == Ok(unique) && Indexes(byTaskId, unique)
      {
        assert batch[..i + 1][..i] == batch[..i];
        var m, bad := CheckOne(batch[i]);
        if bad.Some? {
          PreparedStops(batch, i + 1, bad.value);
          return [], bad;
        }
        Indexed(byTaskId, unique, m.taskId);
        if m.taskId in byTaskId {
          var first := unique[byTaskId[m.taskId]];
          if first.channel != m.channel || EffectiveKind(first.kind) != EffectiveKind(m.kind) {
            PreparedStops(batch, i + 1, Conflict(m.taskId));
            return [], Some(Conflict(m.taskId));
          }
        } else {
          IndexAfterAppend(byTaskId, unique, m);
          byTaskId := byTaskId[m.taskId := |unique|];
          unique := unique + [m];
        }
      }
      assert batch[..|batch|] == batch;
      return unique, None;
    }

    method CheckOne(m: Mapping) returns (filled: Mapping, problem: Option<Error>)
      ensures Checked(m) == if problem.None? then Ok(filled) else Err(problem.value)
      ensures filled.taskId == m.taskId
    {
      filled := m;
      if m.taskId == "" || m.channel == "" {
        return m, Some(MissingIdentity);
      }
      if !ValidLookupId(m.taskId, m.kind) {
        return m, Some(InvalidTaskId);
      }
      if !ValidId(m.aliasId) {
        filled := m.(aliasId := DefaultAlias(m.taskId, m.kind));
      }
      if !ValidId(filled.aliasId) {
        return filled, Some(InvalidAlias);
      }
      return filled, None;
    }

    method RecordMapping(m: Mapping, now: Time) returns (err: Option<Error>)
      requires Valid()
      modifies this, cache
      ensures Valid() && (Contents(), err) == RecordStep(old(Contents()), m, now, cache.max, cache.ttl)
    {
      if m.taskId == "" || m.channel == "" {
        return Some(MissingIdentity);
      }
      if !ValidLookupId(m.taskId, m.kind) {
        return Some(InvalidTaskId);
      }
      var row := m;
      if row.aliasId == "" {
        row := row.(aliasId := DefaultAlias(m.taskId, m.kind));
      }
      if !ValidId(row.aliasId) {
        return Some(InvalidAlias);
      }
      rows := rows[m.taskId := row];
      cache.Publish(row, now);
      return None;
    }

    method DeleteChannelRows(channel: ChannelId)
      requires Valid()
      modifies this, cache
      ensures Valid() && Contents() == DeleteStep(old(Contents()), channel)
    {
      rows := map id | id in rows && rows[id].channel != channel :: rows[id];
      if channel != "" {
        cache.InvalidateChannel(channel);
        assert cache.Contents() == CacheStep(old(cache.Contents()), Invalidating(channel, 0), cache.max, cache.ttl);
      }
    }

    method GetExact(id: TaskId, now: Time) returns (found: Option<Mapping>)
      requires Valid()
      modifies cache
      ensures Valid() && (Contents(), found) == LookupStep(old(Contents()), id, now, cache.max, cache.ttl)
    {
      GetIsFindLive(cache, id, now);
      found := cache.Get(id, now);
      if found.Some? {
        return;
      }
      if id !in rows {
        return None;
      }
      if rows[id].taskId != "" && rows[id].channel != "" {
        cache.Publish(rows[id], now);
      }
      return Some(rows[id]);
    }

    method GetForKind(id: TaskId, kind: string, now: Time) returns (found: Option<Mapping>)
      requires Valid()
      modifies cache
      ensures Valid() && (Contents(), found) == LookupForKindStep(old(Contents()), id, kind, now, cache.max, cache.ttl)
    {
      hide LookupStep;
      if id == "" || kind == "" {
        return None;
      }
      found := GetExact(id, now);
      if found.Some? && EffectiveKind(found.value.kind) == kind {
        return;
      }
      if kind != "image" || Prefixed(id) {
        return None;
      }
      found := GetExact(IMAGE_PREFIX + id, now);
      if found.Some? && EffectiveKind(found.value.kind) == kind {
        return;
      }
      return None;
    }
  }

  lemma {:induction false} GetIsFindLive(cache: TaskMappingCache, id: TaskId, now: Time)
    requires cache.Valid()
    ensures forall found :: Answers(cache.Contents(), id, now, cache.ttl, found) ==>
              found == FindLive(cache.Contents(), id, now, cache.ttl)
  {
    var s := cache.Contents();
    LinkedIsUnique(cache.entries, cache.order, cache.values);
    FindLiveFinds(s, id, now, cache.ttl);
    hide FindLive, Linked, Image;
    forall found | Answers(s, id, now, cache.ttl, found) ensures found == FindLive(s, id, now, cache.ttl) {
      if found.Some? {
        var k :| 0 <= k < |s| && s[k].mapping == found.value && s[k].mapping.taskId == id && !Expired(s[k], now, cache.ttl);
        assert HasLive(s, id, now, cache.ttl);
        var x :| x in s && Some(x.mapping) == FindLive(s, id, now, cache.ttl) && x.mapping.taskId == id;
        var j :| 0 <= j < |s| && s[j] == x;
      }
    }
  }

  lemma {:induction false} PreparedStops(batch: seq<Mapping>, n: nat, e: Error)
    requires n <= |batch| && Prepared(batch[..n]) == Err(e)
    ensures Prepared(batch) == Err(e)
    decreases |batch|
  {
    if n == |batch| {
      assert batch[..n] == batch;
    } else {
      assert batch[..|batch| - 1][..n] == batch[..n];
      PreparedStops(batch[..|batch| - 1], n, e);
    }
  }

  lemma {:induction false} ConflictEndsIt(rows: Rows, unique: seq<Mapping>, n: nat, e: Error)
    requires n <= |unique| && WriteAll(rows, unique[..n]) == Err(e)
    ensures WriteAll(rows, unique) == Err(e)
    decreases |unique|
  {
    if n == |unique| {
      assert unique[..n] == unique;
    } else {
      assert unique[..|unique| - 1][..n] == unique[..n];
      ConflictEndsIt(rows, unique[..|unique| - 1], n, e);
    }
  }

  /** The map remembers where each id sits in the list. */
  ghost predicate Indexes(byTaskId: map<TaskId, nat>, unique: seq<Mapping>) {
    forall id :: if id in byTaskId then byTaskId[id] == IndexOf(unique, id) < |unique| else IndexOf(unique, id) == |unique|
  }

  lemma {:induction false} NothingIndexed()
    ensures Indexes(map[], [])
  {
  }

  lemma {:induction false} Indexed(byTaskId: map<TaskId, nat>, unique: seq<Mapping>, id: TaskId)
    requires Indexes(byTaskId, unique)
    ensures if id in byTaskId then byTaskId[id] == IndexOf(unique, id) < |unique| else IndexOf(unique, id) == |unique|
  {
  }

  lemma {:induction false} IndexAfterAppend(byTaskId: map<TaskId, nat>, unique: seq<Mapping>, m: Mapping)
    requires Indexes(byTaskId, unique) && m.taskId !in byTaskId
    ensures Indexes(byTaskId[m.taskId := |unique|], unique + [m])
  {
    hide IndexOf;
    forall id { IndexOfAppend(unique, m, id); }
  }
}
