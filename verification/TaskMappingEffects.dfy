/** What the writers and readers of `TaskMappings` do, said without its step functions: which rows a batch leaves, what the
    older writer and a channel deletion leave, and what is cached afterwards. */
module TaskMappingEffects {
  import opened Wrappers
  import opened Sequences
  import opened MappingCache
  import opened TaskMappings

  // ---------------------------------------------------------------- batches

  /** The first mapping of the batch for its id. */
  ghost predicate FirstMention(batch: seq<Mapping>, k: nat) {
    k < |batch| && forall j :: 0 <= j < k ==> batch[j].taskId != batch[k].taskId
  }

  /** The alias a mapping is stored with: its own if that is a valid id, else the task id, without the prefix for images. */
  function AliasOf(m: Mapping): string {
    if ValidId(m.aliasId) then m.aliasId
    else if m.kind == "image" && IMAGE_PREFIX <= m.taskId then m.taskId[|IMAGE_PREFIX|..]
    else m.taskId
  }

  /** The alias says no more than the task id does. */
  predicate SaysNothing(m: Mapping) { m.aliasId == "" || m.aliasId == m.taskId }

  /** What a batch leaves for an id it mentions first by `m`: a new row, or the old one with its alias filled in. */
  predicate LeavesFor(rows: Rows, after: Rows, m: Mapping) {
    m.taskId in after
    && after[m.taskId] ==
       if m.taskId !in rows then m.(aliasId := AliasOf(m))
       else if SaysNothing(rows[m.taskId]) then rows[m.taskId].(aliasId := AliasOf(m))
       else rows[m.taskId]
  }

  ghost predicate FirstsKept(unique: seq<Mapping>, batch: seq<Mapping>) {
    forall k: nat :: FirstMention(batch, k) ==> Kept(unique, batch[k])
  }

  predicate Kept(unique: seq<Mapping>, m: Mapping) {
    var i := IndexOf(unique, m.taskId); i < |unique| && Checked(m) == Ok(unique[i])
  }

  lemma {:induction false} MentionedStays(unique: seq<Mapping>, m: Mapping, n: Mapping)
    requires Kept(unique, n)
    ensures Kept(unique + [m], n)
  {
    IndexOfAppend(unique, m, n.taskId);
    hide Checked;
  }

  lemma {:induction false} NewIsKept(unique: seq<Mapping>, m: Mapping)
    requires Checked(m).Ok? && IndexOf(unique, m.taskId) == |unique|
    ensures Kept(unique + [Checked(m).value], m)
  {
    CheckedExactlyWhenWellFormed(m);
    hide Checked;
    IndexOfAppend(unique, Checked(m).value, m.taskId);
  }

  lemma {:induction false} NextIsKept(unique: seq<Mapping>, front: seq<Mapping>, m: Mapping)
    requires FirstsKept(unique, front) && DrawnFrom(unique, front) && AddUnique(unique, m).Ok?
    ensures FirstsKept(AddUnique(unique, m).value, front + [m])
  {
    hide Checked, DrawnFrom, Kept, SameRoute;
    var v, all := AddUnique(unique, m).value, front + [m];
    assert forall j :: 0 <= j < |front| ==> all[j] == front[j];
    forall k: nat | FirstMention(all, k) ensures Kept(v, all[k]) {
      if k < |front| {
        assert FirstMention(front, k);
        if v != unique { MentionedStays(unique, v[|unique|], front[k]); }
      } else {
        if IndexOf(unique, m.taskId) < |unique| { MentionedBefore(unique, front, m); }
        NewIsKept(unique, m);
      }
    }
  }

  lemma {:induction false} FirstsAreKept(batch: seq<Mapping>)
    requires Prepared(batch).Ok?
    ensures FirstsKept(Prepared(batch).value, batch)
  {
    if batch == [] {
    } else {
      var front, last := batch[..|batch| - 1], batch[|batch| - 1];
      assert batch == front + [last];
      FirstsAreKept(front);
      PreparedExactlyWhenConsistent(front);
      hide AddUnique, Consistent, WellFormed, DistinctIds, DrawnFrom, FirstsKept, Covers;
      NextIsKept(Prepared(front).value, front, last);
    }
  }

  /** An id that is kept has been mentioned. */
  lemma {:induction false} MentionedBefore(unique: seq<Mapping>, front: seq<Mapping>, m: Mapping)
    requires DrawnFrom(unique, front) && IndexOf(unique, m.taskId) < |unique|
    ensures exists j :: 0 <= j < |front| && front[j].taskId == m.taskId
  {
    var k := IndexOf(unique, m.taskId);
    assert Drawn(unique[k], front);
    hide Checked;
    var j :| 0 <= j < |front| && Checked(front[j]) == Ok(unique[k]);
    CheckedExactlyWhenWellFormed(front[j]);
  }

  /** Ids a batch does not mention keep their rows. */
  lemma {:induction false} WritesOnlyItsIds(rows: Rows, batch: seq<Mapping>, id: TaskId)
    requires Ensured(rows, batch).Ok? && forall i :: 0 <= i < |batch| ==> batch[i].taskId != id
    ensures RowAt(Ensured(rows, batch).value.rows, id) == RowAt(rows, id)
  {
    PreparedExactlyWhenConsistent(batch);
    var unique := Prepared(batch).value;
    hide Prepared, Covers, WriteAll, WellFormed, Consistent, Checked;
    WriteAllMerges(rows, unique);
    var k := IndexOf(unique, id);
    if k < |unique| {
      assert Drawn(unique[k], batch);
      var i :| 0 <= i < |batch| && Checked(batch[i]) == Ok(unique[k]);
      CheckedExactlyWhenWellFormed(batch[i]);
    }
  }

  lemma {:induction false} MergedLeaves(rows: Rows, m: Mapping, filled: Mapping)
    requires Checked(m) == Ok(filled) && (m.taskId in rows ==> rows[m.taskId].taskId == m.taskId)
    ensures filled == m.(aliasId := AliasOf(m))
    ensures Merged(rows, filled) ==
      if m.taskId !in rows then m.(aliasId := AliasOf(m))
      else if SaysNothing(rows[m.taskId]) then rows[m.taskId].(aliasId := AliasOf(m)) else rows[m.taskId]
  {
    hide ValidLookupId;
    assert ValidId(filled.aliasId) && filled.aliasId != "";
    hide ValidId;
  }

  /** A batch that goes through leaves a row for every id it mentions, made from the first mention: a new one as asked, and
      a stored one with its alias filled in where it said nothing. Every other row stays. */
  lemma {:induction false} BatchIsStored(rows: Rows, batch: seq<Mapping>, k: nat)
    requires OwnIds(rows) && Ensured(rows, batch).Ok? && FirstMention(batch, k)
    ensures LeavesFor(rows, Ensured(rows, batch).value.rows, batch[k])
  {
    PreparedExactlyWhenConsistent(batch);
    FirstsAreKept(batch);
    var unique := Prepared(batch).value;
    hide Prepared, Covers, DrawnFrom, WriteAll, WellFormed, Consistent, Checked, Merged;
    WriteAllMerges(rows, unique);
    assert Kept(unique, batch[k]);
    assert RowAt(Ensured(rows, batch).value.rows, batch[k].taskId) == RowAfter(rows, unique, batch[k].taskId);
    hide FirstsKept, FirstMention, DistinctIds, Agrees, WroteExactly, AliasOf, SaysNothing;
    MergedLeaves(rows, batch[k], unique[IndexOf(unique, batch[k].taskId)]);
  }

  // ---------------------------------------------------------------- the other writers

  /** The older writer takes any mapping with an id and a channel whose id is valid, and whose alias is too, if it has one;
      it overwrites that row and no other. */
  lemma {:induction false} RecordOverwrites(s: State, m: Mapping, now: Time, max: int, ttl: int)
    ensures var r := RecordStep(s, m, now, max, ttl);
      && (r.1.None? <==>
            m.taskId != "" && m.channel != "" && ValidLookupId(m.taskId, m.kind) && (m.aliasId != "" ==> ValidId(m.aliasId)))
      && (r.1.None? ==> r.0.rows == s.rows[m.taskId := m.(aliasId := if m.aliasId == "" then AliasOf(m) else m.aliasId)])
      && (r.1.Some? ==> r.0 == s)
      && (r.1.None? && max > 0 ==> Entry(r.0.rows[m.taskId], now) in r.0.cached)
  {
    hide BadChar, HasDots, DropExpired, Without, LastN, HasId;
    if Recorded(m).Ok? { LastIsCached(s.cached, Recorded(m).value, now, max, ttl); }
    assert !ValidId("");
  }

  lemma {:induction false} LastIsCached(cached: seq<Entry>, m: Mapping, now: Time, max: int, ttl: int)
    ensures max > 0 ==> Entry(m, now) in Published(cached, m, now, max, ttl)
  {
    hide DropExpired, Without, LastN, HasId;
    var t := Published(cached, m, now, max, ttl);
    if max > 0 { assert t[|t| - 1] == Entry(m, now); }
  }

  /** A channel's deletion removes exactly its rows, and from the cache exactly its routes. */
  lemma {:induction false} DeletionRemovesTheChannel(s: State, channel: ChannelId)
    ensures var t := DeleteStep(s, channel);
      && (forall id :: id in t.rows <==> id in s.rows && s.rows[id].channel != channel)
      && (forall id :: id in t.rows ==> t.rows[id] == s.rows[id])
      && (channel != "" ==> forall x :: x in t.cached <==> x in s.cached && x.mapping.channel != channel)
      && (channel == "" ==> t.cached == s.cached)
  {
    FilterMembers(s.cached, (e: Entry) => e.mapping.channel != channel);
    hide Filter;
  }

  // ---------------------------------------------------------------- the cache

  /** A publish is answered from the cache from then on until it is as old as the cache allows, and not longer. */
  lemma {:induction false} PublishIsAnsweredWhileFresh(cached: seq<Entry>, m: Mapping, at: Time, now: Time, max: int, ttl: int)
    requires Shaped(cached, at) && max > 0 && at <= now
    ensures Answers(Published(cached, m, at, max, ttl), m.taskId, now, ttl, Some(m)) <==> now < at + ttl
    ensures Answers(Published(cached, m, at, max, ttl), m.taskId, now, ttl, None) <==> now >= at + ttl
  {
    LastIsCached(cached, m, at, max, ttl);
    var t := Published(cached, m, at, max, ttl);
    var k :| 0 <= k < |t| && t[k] == Entry(m, at);
    forall j | 0 <= j < |t| && t[j].mapping.taskId == m.taskId ensures t[j] == Entry(m, at) {
      OnlyEntryOfItsId(cached, m, at, max, ttl, j);
    }
    hide Published;
  }

  /** The publish leaves no other entry of its id. */
  lemma {:induction false} OnlyEntryOfItsId(cached: seq<Entry>, m: Mapping, at: Time, max: int, ttl: int, j: nat)
    requires max > 0 && j < |Published(cached, m, at, max, ttl)|
    ensures var t := Published(cached, m, at, max, ttl); t[j] == Entry(m, at) || t[j].mapping.taskId != m.taskId
  {
    var live := DropExpired(cached, at, ttl);
    FilterMembers(live, (e: Entry) => e.mapping.taskId != m.taskId);
    hide DropExpired, Filter;
    var t := Published(cached, m, at, max, ttl);
    if j < |t| - 1 {
      assert t[j] in t[..|t| - 1];
      if !HasId(live, m.taskId) { assert forall x :: x in LastN(live, max - 1) ==> x in live; }
    }
  }

  /** The entries a batch has published so far are the last ones, in order. */
  ghost predicate EndsWith(cached: seq<Entry>, ps: seq<Mapping>, now: Time) {
    |ps| <= |cached| && forall i :: 0 <= i < |ps| ==> cached[|cached| - |ps| + i] == Entry(ps[i], now)
  }

  lemma {:induction false} FreshIsNotFirst(cached: seq<Entry>, ps: seq<Mapping>, now: Time, ttl: int)
    requires EndsWith(cached, ps, now) && ttl > 0 && ps != []
    ensures |ps| == |cached| ==> !Expired(cached[0], now, ttl)
  {
    assert cached[|cached| - |ps| + 0] == Entry(ps[0], now);
  }

  lemma {:induction false} DropKeepsFreshEnd(cached: seq<Entry>, ps: seq<Mapping>, now: Time, ttl: int)
    requires EndsWith(cached, ps, now) && ttl > 0
    ensures EndsWith(DropExpired(cached, now, ttl), ps, now)
  {
    if cached != [] && Expired(cached[0], now, ttl) {
      if ps != [] { FreshIsNotFirst(cached, ps, now, ttl); }
      DropKeepsFreshEnd(cached[1..], ps, now, ttl);
    }
  }

  lemma {:induction false} WithoutKeepsEnd(cached: seq<Entry>, ps: seq<Mapping>, id: TaskId, now: Time)
    requires EndsWith(cached, ps, now) && forall i :: 0 <= i < |ps| ==> ps[i].taskId != id
    ensures EndsWith(Without(cached, id), ps, now)
  {
    var n := |cached| - |ps|;
    assert cached == cached[..n] + cached[n..];
    FilterConcat(cached[..n], cached[n..], (e: Entry) => e.mapping.taskId != id);
    forall x | x in cached[n..] ensures x.mapping.taskId != id {
      var i :| 0 <= i < |cached[n..]| && cached[n..][i] == x;
      assert cached[|cached| - |ps| + i] == Entry(ps[i], now);
    }
    FilterAll(cached[n..], (e: Entry) => e.mapping.taskId != id);
    hide Filter;
    var head := Without(cached[..n], id);
    assert Without(cached, id) == head + cached[n..];
  }

  lemma {:induction false} OneMoreAtTheEnd(cached: seq<Entry>, front: seq<Mapping>, m: Mapping, now: Time, max: int, ttl: int)
    requires EndsWith(cached, front, now) && ttl > 0 && |front| < max && forall i :: 0 <= i < |front| ==> front[i].taskId != m.taskId
    ensures EndsWith(Published(cached, m, now, max, ttl), front + [m], now)
  {
    DropKeepsFreshEnd(cached, front, now, ttl);
    var live := DropExpired(cached, now, ttl);
    hide DropExpired;
    if HasId(live, m.taskId) {
      WithoutKeepsEnd(live, front, m.taskId, now);
      hide Without, HasId;
    } else {
      hide Without, HasId;
    }
  }

  /** With room for them, every row a batch has written is cached after it. */
  lemma {:induction false} PublishedStaysCached(cached: seq<Entry>, ps: seq<Mapping>, now: Time, max: int, ttl: int)
    requires DistinctIds(ps) && |ps| <= max && ttl > 0
    ensures EndsWith(PublishAll(cached, ps, now, max, ttl), ps, now)
  {
    if ps == [] {
    } else {
      var front, last := ps[..|ps| - 1], ps[|ps| - 1];
      assert ps == front + [last];
      PublishedStaysCached(cached, front, now, max, ttl);
      hide Published;
      OneMoreAtTheEnd(PublishAll(cached, front, now, max, ttl), front, last, now, max, ttl);
    }
  }

  /** A lookup that has to read the row leaves it cached; one answered from the cache changes nothing. */
  lemma {:induction false} ReadRowIsCached(s: State, id: TaskId, now: Time, max: int, ttl: int)
    requires Inv(s) && max > 0 && id != ""
    ensures var (t, found) := LookupStep(s, id, now, max, ttl);
      found.Some? ==> if HasLive(s.cached, id, now, ttl) then t == s else Entry(found.value, now) in t.cached
  {
    FindLiveFinds(s.cached, id, now, ttl);
    hide Published, FindLive, HasLive, Coherent;
    if id in s.rows && !HasLive(s.cached, id, now, ttl) {
      LastIsCached(CacheStep(s.cached, LookingUp(id, now), max, ttl), s.rows[id], now, max, ttl);
    }
    if HasLive(s.cached, id, now, ttl) { CachedLookupIsRowLookup(s, id, now, max, ttl); }
  }

  /** A lookup that finds neither a live entry nor a row forgets the entries of its id, and nothing else; a purge drops
      entries from the front while they are expired, and clearing drops all. */
  lemma {:induction false} ForgetsWhatIsGone(s: State, id: TaskId, now: Time, max: int, ttl: int)
    ensures !HasLive(s.cached, id, now, ttl) && id !in s.rows ==>
      var (t, found) := LookupStep(s, id, now, max, ttl);
      && found == None && t.rows == s.rows
      && (forall x :: x in t.cached <==> x in s.cached && x.mapping.taskId != id)
    ensures var t := Apply(s, Purge, now, max, ttl);
      && t.rows == s.rows && (t.cached == [] || !Expired(t.cached[0], now, ttl))
      && exists k: nat :: k <= |s.cached| && ExpiredBefore(s.cached, k, now, ttl) && t.cached == s.cached[k..]
    ensures Apply(s, ClearCache, now, max, ttl) == State(s.rows, [])
  {
    FindLiveFinds(s.cached, id, now, ttl);
    FilterMembers(s.cached, (e: Entry) => e.mapping.taskId != id);
    hide Filter, FindLive, HasLive, Expired;
    DropsTheFront(s.cached, now, ttl);
    hide DropExpired;
  }

  /** The first k entries have expired. */
  ghost predicate ExpiredBefore(cached: seq<Entry>, k: nat, now: Time, ttl: int) {
    k <= |cached| && forall j :: 0 <= j < k ==> Expired(cached[j], now, ttl)
  }

  lemma {:induction false} OneMoreExpired(cached: seq<Entry>, k: nat, now: Time, ttl: int)
    requires cached != [] && Expired(cached[0], now, ttl) && ExpiredBefore(cached[1..], k, now, ttl)
    ensures ExpiredBefore(cached, k + 1, now, ttl) && cached[1..][k..] == cached[k + 1..]
  {
    hide Expired;
    forall j | 0 <= j < k + 1 ensures Expired(cached[j], now, ttl) {
      if j > 0 { assert cached[j] == cached[1..][j - 1]; }
    }
  }

  lemma {:induction false} DropsTheFront(cached: seq<Entry>, now: Time, ttl: int)
    ensures var t := DropExpired(cached, now, ttl);
      && (t == [] || !Expired(t[0], now, ttl))
      && exists k: nat :: k <= |cached| && ExpiredBefore(cached, k, now, ttl) && t == cached[k..]
  {
    if cached != [] && Expired(cached[0], now, ttl) {
      DropsTheFront(cached[1..], now, ttl);
      hide Expired, ExpiredBefore;
      var k: nat :| k <= |cached[1..]| && ExpiredBefore(cached[1..], k, now, ttl)
                    && DropExpired(cached[1..], now, ttl) == cached[1..][k..];
      OneMoreExpired(cached, k, now, ttl);
    } else {
      assert ExpiredBefore(cached, 0, now, ttl) && cached[0..] == cached;
    }
  }

  // ---------------------------------------------------------------- ids, kinds and refusals

  /** What an id may be made of: neither blanks nor control characters, nor what a path or a query needs. */
  predicate Plain(c: char) { c > ' ' && c != '\U{7F}' && c !in {'/', '\\', '?', '#', '&'} }

  lemma {:induction false} PlainIsNotBad(c: char)
    ensures Plain(c) <==> !BadChar(c)
  {
    assert "/\\?#& \r\n\t" == ['/', '\\', '?', '#', '&', ' ', '\r', '\n', '\t'];
  }

  lemma {:induction false} DotsAreApart(id: string)
    ensures HasDots(id) <==> exists a: string, b: string :: id == a + ".." + b
  {
    if HasDots(id) {
      var i :| 0 <= i < |id| - 1 && id[i] == '.' && id[i + 1] == '.';
      assert id == id[..i] + ".." + id[i + 2..];
    }
    if a: string, b: string :| id == a + ".." + b {
      assert id[|a|] == '.' && id[|a| + 1] == '.';
    }
  }

  /** An id has 1 to 128 bytes, all of them plain, and no two dots in a row. */
  lemma {:induction false} IdsAreValidExactlyWhen(id: string)
    ensures ValidId(id) <==>
      1 <= |id| <= 128 && (forall a: string, b: string :: id != a + ".." + b) && (forall c :: c in id ==> Plain(c))
  {
    DotsAreApart(id);
    forall i | 0 <= i < |id| ensures Plain(id[i]) <==> !BadChar(id[i]) { PlainIsNotBad(id[i]); }
    hide HasDots, BadChar, Plain;
    assert forall i :: 0 <= i < |id| ==> id[i] in id;
  }

  /** A row without a kind is a video row; otherwise kinds are what they are called. */
  lemma {:induction false} RoutesAgreeExactlyWhen(a: Mapping, b: Mapping)
    ensures SameRoute(a, b) <==>
      a.channel == b.channel && (a.kind == b.kind || (a.kind in {"", "video"} && b.kind in {"", "video"}))
  {
  }

  /** What is refused says why: a blank id or channel, an id that cannot be looked up, another route, an alias of the older
      writer that is no id. */
  lemma {:induction false} RefusalsSayWhy(rows: Rows, m: Mapping)
    ensures var r, blank, bad := Ensured(rows, [m]), m.taskId == "" || m.channel == "", !ValidLookupId(m.taskId, m.kind);
      && (r == Err(MissingIdentity) <==> blank) && (r == Err(InvalidTaskId) <==> !blank && bad)
      && (r == Err(Conflict(m.taskId)) <==> !blank && !bad && m.taskId in rows && !SameRoute(rows[m.taskId], m))
    ensures var r, blank, bad := Recorded(m), m.taskId == "" || m.channel == "", !ValidLookupId(m.taskId, m.kind);
      && (r == Err(MissingIdentity) <==> blank) && (r == Err(InvalidTaskId) <==> !blank && bad)
      && (r == Err(InvalidAlias) <==> !blank && !bad && m.aliasId != "" && !ValidId(m.aliasId))
  {
    CheckedExactlyWhenWellFormed(m);
    assert [m][..0] == [] && Prepared([]) == Ok([]) && Prepared([m]) == AddUnique([], m);
    if Checked(m).Ok? {
      var filled := Checked(m).value;
      assert [] + [filled] == [filled] && [filled][..0] == [];
      assert WriteAll(rows, []) == Ok(Written(rows, [])) && WriteAll(rows, [filled]) == WriteOne(Written(rows, []), filled);
    }
    hide BadChar, HasDots, Prepared, WriteAll;
    assert !ValidId("");
  }
}
