/** What the transactions of `Media` do, said without its step functions: which slots and jobs there are afterwards, who
    may claim a job and when, and how a request to delete comes to its end. */
module MediaEffects {
  import opened Wrappers
  import TaskRuns
  import opened Media
  import opened MediaInvariant

  predicate Works(r: Step) { r.err.None? }

  // ---------------------------------------------------------------- slots and jobs

  /** The slot has an asset with a job. */
  predicate Filled(s: State, r: RunId, ordinal: nat) {
    (r, ordinal) in s.ordinals && s.ordinals[(r, ordinal)] in s.assets && s.ordinals[(r, ordinal)] in s.jobs
  }

  /** The slot is as before, or was empty and now has a pending asset without a file, and a job anyone may claim. */
  predicate KeptOrFresh(s: State, t: State, r: RunId, kind: Kind, ordinal: nat) {
    Filled(t, r, ordinal) &&
    if (r, ordinal) in s.ordinals then t.ordinals[(r, ordinal)] == s.ordinals[(r, ordinal)]
    else
      t.assets[t.ordinals[(r, ordinal)]] == Asset(r, kind, ordinal, Pending, None)
      && Fresh(t.jobs[t.ordinals[(r, ordinal)]])
  }

  predicate Fresh(job: Job) {
    job.status.JobPending? && job.owner.None? && job.expires.None? && job.nextAttempt.None? && job.attempts == 0
  }

  ghost predicate SlotsDone(s: State, t: State, r: RunId, kind: Kind, urls: seq<Option<Url>>, n: nat)
    requires n <= |urls|
  {
    && (forall k :: 0 <= k < n && urls[k].Some? ==> KeptOrFresh(s, t, r, kind, k))
    && (forall key :: key in t.ordinals ==> key in s.ordinals || Asked(key, r, urls, n))
  }

  predicate Asked(key: (RunId, nat), r: RunId, urls: seq<Option<Url>>, n: nat)
    requires n <= |urls|
  {
    key.0 == r && key.1 < n && urls[key.1].Some?
  }

  /** What was there is there unchanged. */
  ghost predicate Extends(s: State, t: State) {
    && (forall a :: a in s.assets ==> a in t.assets && t.assets[a] == s.assets[a])
    && (forall a :: a in s.jobs ==> a in t.jobs && t.jobs[a] == s.jobs[a])
    && (forall key :: key in s.ordinals ==> key in t.ordinals && t.ordinals[key] == s.ordinals[key])
  }

  ghost predicate SlotsSound(s: State) { Indexed(s.assets, s.ordinals, s.nextAsset) && s.jobs.Keys <= s.assets.Keys }

  lemma {:induction false} JobIsEnsured(s: State, a: AssetId)
    requires SlotsSound(s) && a in s.assets
    ensures var t := EnsureJob(s, a);
      && SlotsSound(t) && Extends(s, t) && t.assets == s.assets && t.ordinals == s.ordinals
      && a in t.jobs && (a !in s.jobs ==> Fresh(t.jobs[a]))
  {
    hide Indexed;
  }

  lemma {:induction false} SlotIsAdded(s: State, asset: Asset)
    requires SlotsSound(s) && (asset.taskRun, asset.ordinal) !in s.ordinals
    ensures var t, key := AddAsset(s, asset), (asset.taskRun, asset.ordinal);
      && SlotsSound(t) && Extends(s, t) && t.ordinals == s.ordinals[key := s.nextAsset] && s.nextAsset !in t.jobs
      && t.assets == s.assets[s.nextAsset := asset]
  {
    assert s.nextAsset !in s.assets && s.nextAsset !in s.jobs;
    IndexAdd(s.assets, s.ordinals, s.nextAsset, asset);
    hide Indexed;
  }

  lemma {:induction false} SlotHasAsset(s: State, key: (RunId, nat))
    requires SlotsSound(s) && key in s.ordinals
    ensures s.ordinals[key] in s.assets
  {
  }

  lemma {:induction false} OneSlotIsDone(s: State, r: RunId, kind: Kind, k: nat)
    requires SlotsSound(s)
    ensures var t := EnsureSlot(s, r, kind, k);
      SlotsSound(t) && KeptOrFresh(s, t, r, kind, k) && t.ordinals.Keys == s.ordinals.Keys + {(r, k)} && Extends(s, t)
  {
    hide SlotsSound, EnsureJob, AddAsset, Fresh;
    if (r, k) in s.ordinals {
      SlotHasAsset(s, (r, k));
      JobIsEnsured(s, s.ordinals[(r, k)]);
    } else {
      var asset := Asset(r, kind, k, Pending, None);
      SlotIsAdded(s, asset);
      JobIsEnsured(AddAsset(s, asset), s.nextAsset);
    }
  }

  lemma {:induction false} KeptOrFreshStays(s: State, t: State, u: State, r: RunId, kind: Kind, k: nat)
    requires KeptOrFresh(s, t, r, kind, k) && Extends(t, u)
    ensures KeptOrFresh(s, u, r, kind, k)
  {
  }

  lemma {:induction false} KeptOrFreshSince(s: State, t: State, u: State, r: RunId, kind: Kind, k: nat)
    requires KeptOrFresh(t, u, r, kind, k) && Extends(s, t) && ((r, k) in t.ordinals ==> (r, k) in s.ordinals)
    ensures KeptOrFresh(s, u, r, kind, k)
  {
  }

  lemma {:induction false} SlotsAreDone(s: State, r: RunId, kind: Kind, urls: seq<Option<Url>>, n: nat)
    requires SlotsSound(s) && n <= |urls|
    ensures var t := EnsureSlots(s, r, kind, urls, n); SlotsSound(t) && Extends(s, t) && SlotsDone(s, t, r, kind, urls, n)
  {
    hide EnsureSlot, SlotsSound, KeptOrFresh;
    if n == 0 {
    } else {
      SlotsAreDone(s, r, kind, urls, n - 1);
      var t := EnsureSlots(s, r, kind, urls, n - 1);
      var u := EnsureSlots(s, r, kind, urls, n);
      if urls[n - 1].Some? {
        OneSlotIsDone(t, r, kind, n - 1);
        forall k | 0 <= k < n && urls[k].Some? ensures KeptOrFresh(s, u, r, kind, k) {
          if k < n - 1 { KeptOrFreshStays(s, t, u, r, kind, k); } else { KeptOrFreshSince(s, t, u, r, kind, k); }
        }
      }
    }
  }

  /** Ensuring result media works for any task with an id. Afterwards the slots of the urls that are not blank are
      filled, and no others were added: those already there as they were, the rest with a fresh asset and job. */
  lemma {:induction false} EnsuredSlotsAreFilled(s: State, r: RunId, kind: Kind, urls: seq<Option<Url>>)
    requires Inv(s)
    ensures Works(EnsureResultMediaStep(s, r, kind, urls)) <==> r != 0
    ensures r != 0 ==>
      var t := EnsureResultMediaStep(s, r, kind, urls).state; SlotsDone(s, t, r, kind, urls, |urls|) && Extends(s, t)
  {
    IndexOf(s);
    hide Inv, EnsureSlots, SlotsDone, SlotsSound, Extends;
    SlotsAreDone(s, r, kind, urls, |urls|);
  }

  lemma {:induction false} IndexOf(s: State)
    requires Inv(s)
    ensures SlotsSound(s)
  {
  }

  /** Ensuring content media works for a task whose provider has answered, unless slot 0 holds another kind. */
  lemma {:induction false} ContentIsEnsuredExactlyWhen(s: State, r: RunId, kind: Kind)
    requires Inv(s)
    ensures Works(EnsureContentMediaStep(s, r, kind)) <==>
      r != 0 && kind != NoKind && r in s.runs && s.runs[r].providerTaskId.Some?
      && ((r, 0) in s.ordinals ==> s.ordinals[(r, 0)] in s.assets && s.assets[s.ordinals[(r, 0)]].kind == kind)
    ensures Works(EnsureContentMediaStep(s, r, kind)) ==>
      EnsureContentMediaStep(s, r, kind) == EnsureResultMediaStep(s, r, kind, [Some("")])
  {
    SlotZeroExists(s, r);
    hide Inv, EnsureSlot;
    assert EnsureSlots(s, r, kind, [Some("")], 0) == s;
  }

  lemma {:induction false} SlotZeroExists(s: State, r: RunId)
    requires Inv(s)
    ensures (r, 0) in s.ordinals ==> s.ordinals[(r, 0)] in s.assets
  {
  }

  // ---------------------------------------------------------------- claiming and working

  /** The lease a worker asks for, or the default of five minutes. */
  function Length(lease: int): int { if lease > 0 then lease else 300_000 }

  /** The job is not finished, and its retry time has come. */
  predicate Open(job: Job, now: Time) { !job.status.JobSucceeded? && (job.nextAttempt.Some? ==> job.nextAttempt.value <= now) }

  /** A claim shuts others out until its lease ends, and lets its own worker renew or finish until then. */
  lemma {:induction false} ClaimLastsItsLease(s: State, now: Time, a: AssetId, lease: int, later: Time, again: int, more: int)
    requires Works(ClaimJobStep(s, now, a, lease)) && now <= later && more > 0
    ensures var t := ClaimJobStep(s, now, a, lease).state;
      && (Works(ClaimJobStep(t, later, a, again)) <==> later >= now + Length(lease))
      && (Works(RenewJobStep(t, later, a, s.nextToken, more)) <==> later < now + Length(lease))
      && (Works(CompleteJobStep(t, later, a, s.nextToken)) <==> later < now + Length(lease))
      && a in t.jobs && t.jobs[a].attempts == s.jobs[a].attempts + 1
      && t == s.(jobs := s.jobs[a := t.jobs[a]], nextToken := s.nextToken + 1)
  {
  }

  /** The asset's own worker claims the same lease, and marks the asset. */
  lemma {:induction false} AssetClaimIsAClaim(s: State, now: Time, a: AssetId, lease: int)
    requires Works(ClaimAssetStep(s, now, a, lease))
    ensures Works(ClaimJobStep(s, now, a, lease)) && a in s.assets
    ensures ClaimAssetStep(s, now, a, lease).state ==
      ClaimJobStep(s, now, a, lease).state.(assets := s.assets[a := s.assets[a].(status := Materializing)])
  {
  }

  /** When a job can be claimed: it is open and nobody's lease on it is running. For the asset's own worker the asset
      must still want its file. */
  lemma {:induction false} ClaimableExactlyWhenOpen(s: State, now: Time, a: AssetId, lease: int)
    ensures Works(ClaimJobStep(s, now, a, lease)) <==>
      a in s.jobs && Open(s.jobs[a], now) && (s.jobs[a].expires.Some? ==> s.jobs[a].expires.value <= now)
    ensures Works(ClaimAssetStep(s, now, a, lease)) <==>
      Works(ClaimJobStep(s, now, a, lease)) && a in s.assets && s.assets[a].status in {Failed, Pending, Materializing}
    ensures Works(ClaimDeletionStep(s, now, a, lease)) <==>
      a in s.deletions && Open(s.deletions[a].job, now)
      && (s.deletions[a].job.expires.Some? ==> s.deletions[a].job.expires.value <= now)
  {
  }

  /** The first worker of a new asset holds its lease; the slot is taken from then on. */
  lemma {:induction false} CreatedForItsWorker(
    s: State, now: Time, r: RunId, kind: Kind, ordinal: nat, lease: int, later: Time, more: int)
    requires Inv(s) && more > 0
    ensures Works(CreateForMaterializationStep(s, now, r, kind, ordinal, lease)) <==> (r, ordinal) !in s.ordinals
    ensures (r, ordinal) !in s.ordinals ==>
      var t := CreateForMaterializationStep(s, now, r, kind, ordinal, lease).state;
      && (r, ordinal) in t.ordinals && !Works(CreateForMaterializationStep(t, later, r, kind, ordinal, lease))
      && var a := t.ordinals[(r, ordinal)];
         && a !in s.assets && a in t.assets && a in t.jobs
         && t.assets[a] == Asset(r, if kind == NoKind then UnknownKind else kind, ordinal, Materializing, None)
         && (Works(RenewJobStep(t, later, a, s.nextToken, more)) <==> later < now + Length(lease))
         && (Works(ClaimJobStep(t, later, a, more)) <==> later >= now + Length(lease))
  {
    IndexOf(s);
    hide Inv;
  }

  /** A worker under a live lease can move its end, finish the job for good, or give it back for a later attempt; without
      a time for that it can be claimed again at once. Nothing else changes. */
  lemma {:induction false} WorkerMayEndItsJob(
    s: State, now: Time, a: AssetId, token: Token, lease: int, next: Option<Time>, later: Time, again: int)
    requires a in s.jobs && Leased(s.jobs[a], token, now) && lease > 0 && again > 0
    ensures var t := RenewJobStep(s, now, a, token, lease).state;
      Works(RenewJobStep(s, now, a, token, lease)) && (Works(RenewJobStep(t, later, a, token, again)) <==> later < now + lease)
      && t == s.(jobs := s.jobs[a := s.jobs[a].(expires := t.jobs[a].expires)])
    ensures var t := CompleteJobStep(s, now, a, token).state;
      Works(CompleteJobStep(s, now, a, token)) && t.jobs.Keys == s.jobs.Keys && !Works(ClaimJobStep(t, later, a, again))
      && t == s.(jobs := s.jobs[a := t.jobs[a]])
    ensures var t := FailJobStep(s, now, a, token, next).state;
      Works(FailJobStep(s, now, a, token, next)) && t == s.(jobs := s.jobs[a := t.jobs[a]])
      && (Works(ClaimJobStep(t, later, a, again)) <==> next.Some? ==> next.value <= later)
      && t.jobs[a] == Job(if next.Some? then JobPending else JobFailed, None, None, next, s.jobs[a].attempts)
  {
  }

  /** Failing a job together with its asset needs a live asset, and then the asset can be claimed for another attempt. */
  lemma {:induction false} FailedTogether(s: State, now: Time, a: AssetId, token: Token, next: Option<Time>)
    requires a in s.jobs && Leased(s.jobs[a], token, now)
    ensures Works(FailWithAssetStep(s, now, a, token, next)) <==>
      a in s.assets && s.assets[a].status in {Pending, Materializing, Available, Failed}
    ensures Works(FailWithAssetStep(s, now, a, token, next)) ==>
      FailWithAssetStep(s, now, a, token, next).state ==
      FailJobStep(s, now, a, token, next).state.(assets := s.assets[a := s.assets[a].(status := Failed)])
  {
  }

  /** An asset can be marked available with a stored file exactly while neither is gone; it then has that file, which is
      Ready, and of the other files only the one it had before changes. */
  lemma {:induction false} MarkAttachesTheFile(s: State, a: AssetId, o: ObjectId)
    ensures Works(MarkAvailableStep(s, a, o)) <==>
      a in s.assets && s.assets[a].status in {Pending, Materializing, Available, Failed}
      && o in s.objects && s.objects[o].state != ObjectState.Deleted
    ensures Works(MarkAvailableStep(s, a, o)) ==>
      var t, before := MarkAvailableStep(s, a, o).state, s.assets[a].objectId;
      && t == s.(assets := s.assets[a := s.assets[a].(status := Available, objectId := Some(o))], objects := t.objects)
      && o in t.objects && (before != Some(o) ==> t.objects[o].state == Ready) && (before == Some(o) ==> t.objects == s.objects)
      && (forall p :: p in s.objects && p != o && before != Some(p) ==> p in t.objects && t.objects[p] == s.objects[p])
  {
    hide LiveRefs;
  }

  /** The file an asset moves away from loses one reference, and with the last one it may be deleted. */
  lemma {:induction false} MarkGivesUpTheOldFile(s: State, a: AssetId, o: ObjectId, before: ObjectId)
    requires Inv(s) && Works(MarkAvailableStep(s, a, o)) && s.assets[a].objectId == Some(before) && before != o
    ensures var t := MarkAvailableStep(s, a, o).state;
      && before in s.objects && before in t.objects && t.objects[before].refCount == s.objects[before].refCount - 1
      && (Works(PrepareDeletionStep(t, before)) <==> LiveRefs(s.assets, before) == {a})
  {
    hide Inv, LiveRefs;
    MarkAttachesTheFile(s, a, o);
    LastReference(s, a, before);
  }

  /** A commit under a live lease works exactly while the asset has not been revoked; the asset then has the worker's
      file, which counts one reference, and the job is over. */
  lemma {:induction false} CommitAttachesTheFile(s: State, now: Time, a: AssetId, token: Token, later: Time, lease: int)
    requires Inv(s) && a in s.jobs && Leased(s.jobs[a], token, now)
    ensures a in s.assets
    ensures Works(CommitStep(s, now, a, token, token)) <==> s.assets[a].status in {Pending, Materializing, Available, Failed}
    ensures Works(CommitStep(s, now, a, token, token)) ==>
      var t := CommitStep(s, now, a, token, token).state;
      && t.assets == s.assets[a := s.assets[a].(status := Available, objectId := Some(token))]
      && token in t.objects && t.objects[token] == StoredObject(Ready, 1, 0) && !Works(ClaimJobStep(t, later, a, lease))
      && t.deletions == s.deletions && t.jobs.Keys == s.jobs.Keys && t.ordinals == s.ordinals
  {
    CommitIsFresh(s, a, token);
    hide Inv;
    var stored := s.(jobs := s.jobs[a := Finished(s.jobs[a])], objects := s.objects[token := StoredObject(Ready, 1, 0)]);
    MarkStored(stored, a, token);
    if Works(MarkAvailableStep(stored, a, token)) {
      CompletionTouchesRuns(MarkAvailableStep(stored, a, token).state, now, s.assets[a].taskRun, s.assets[a].kind);
    }
    hide MarkAvailableStep, CompleteTaskStep, LiveRefs;
  }

  /** The mark within a commit, onto the file just stored. */
  lemma {:induction false} MarkStored(s: State, a: AssetId, o: ObjectId)
    requires a in s.assets && o in s.objects && s.objects[o] == StoredObject(Ready, 1, 0)
    requires s.assets[a].objectId != Some(o) && LiveRefs(s.assets, o) == {}
    ensures Works(MarkAvailableStep(s, a, o)) <==> s.assets[a].status in {Pending, Materializing, Available, Failed}
    ensures Works(MarkAvailableStep(s, a, o)) ==>
      var t := MarkAvailableStep(s, a, o).state;
      && t == s.(assets := s.assets[a := s.assets[a].(status := Available, objectId := Some(o))], objects := t.objects)
      && o in t.objects && t.objects[o] == StoredObject(Ready, 1, 0)
  {
    assert LiveRefs(s.assets, o) - {a} == {};
    hide LiveRefs;
  }

  lemma {:induction false} CompletionTouchesRuns(s: State, now: Time, run: RunId, kind: Kind)
    ensures var r := CompleteTaskStep(s, now, run, kind);
      r.state == s.(runs := r.state.runs) && (run != 0 && run in s.runs ==> r.err.None?)
  {
    hide BatchReady, TaskRuns.Promoted, TaskRuns.StatusRank;
  }

  /** In the same transaction the commit completes the asset's task if that makes its batch whole. */
  lemma {:induction false} CommitMayCompleteItsTask(s: State, now: Time, a: AssetId, token: Token)
    requires a in s.assets && Works(CommitStep(s, now, a, token, token))
    ensures var t, run := CommitStep(s, now, a, token, token).state, s.assets[a].taskRun;
      t.runs == if run == 0 || run !in s.runs then s.runs
                else CompleteTaskStep(s.(assets := t.assets), now, run, s.assets[a].kind).state.runs
  {
    var stored := s.(jobs := s.jobs[a := Finished(s.jobs[a])], objects := s.objects[token := StoredObject(Ready, 1, 0)]);
    var t, run := MarkAvailableStep(stored, a, token).state, s.assets[a].taskRun;
    MarkTouchesNoRun(stored, a, token);
    CompletionSees(t, s.(assets := t.assets), now, run, s.assets[a].kind);
    CompletionTouchesRuns(t, now, run, s.assets[a].kind);
    hide MarkAvailableStep, CompleteTaskStep;
  }

  lemma {:induction false} MarkTouchesNoRun(s: State, a: AssetId, o: ObjectId)
    ensures MarkAvailableStep(s, a, o).state.runs == s.runs
  {
    hide LiveRefs, LeaveObject, JoinObject;
  }

  lemma {:induction false} CompletionSees(s: State, t: State, now: Time, run: RunId, kind: Kind)
    requires s.runs == t.runs && s.assets == t.assets
    ensures CompleteTaskStep(s, now, run, kind).state.runs == CompleteTaskStep(t, now, run, kind).state.runs
  {
    hide BatchReady, TaskRuns.Promoted;
  }

  lemma {:induction false} CommitIsFresh(s: State, a: AssetId, token: Token)
    requires Inv(s) && a in s.jobs && s.jobs[a].owner == Some(token)
    ensures token !in s.objects && a in s.assets
    ensures s.assets[a].objectId != Some(token) && LiveRefs(s.assets, token) == {}
  {
    assert JobRow(s.jobs[a], s.objects.Keys, s.nextToken);
    assert token !in s.objects;
    assert forall b :: b in s.assets ==> s.assets[b].objectId != Some(token);
  }

  /** How often the asset's job has been claimed. */
  function Attempts(s: State, a: AssetId): nat { if a in s.jobs then s.jobs[a].attempts else 0 }

  /** A retry works for an asset that wants its file, leaves a running worker alone, and otherwise makes the job claimable
      at once. */
  lemma {:induction false} RetryReopens(s: State, now: Time, a: AssetId, later: Time, lease: int)
    ensures Works(RetryMaterializationStep(s, now, a)) <==> a in s.assets && s.assets[a].status in {Failed, Pending, Materializing}
    ensures Works(RetryMaterializationStep(s, now, a)) ==>
      var t := RetryMaterializationStep(s, now, a).state;
      if a in s.jobs && s.jobs[a].status == JobRunning && s.jobs[a].expires.Some? && s.jobs[a].expires.value > now then t == s
      else Works(ClaimAssetStep(t, later, a, lease)) && t.assets == s.assets[a := s.assets[a].(status := Materializing)]
           && t == s.(assets := t.assets, jobs := s.jobs[a := Job(JobPending, None, None, None, Attempts(s, a))])
  {
  }

  // ---------------------------------------------------------------- completion of a task

  function Batch(s: State, run: RunId, kind: Kind): set<AssetId> {
    set a | a in s.assets && s.assets[a].taskRun == run && (kind == NoKind || s.assets[a].kind == kind)
  }

  predicate HasFile(s: State, a: AssetId) { a in s.assets && s.assets[a].status == Available && s.assets[a].objectId.Some? }

  /** Completing a task that has not ended ends it, successfully, exactly when its batch is not empty and every asset of it
      has its file; assets of other tasks and kinds do not matter. */
  lemma {:induction false} CompletesExactlyWhenWhole(s: State, now: Time, run: RunId, kind: Kind)
    requires run != 0 && run in s.runs && !TaskRuns.IsTerminal(s.runs[run].status)
    ensures Works(CompleteTaskStep(s, now, run, kind))
    ensures var t := CompleteTaskStep(s, now, run, kind).state;
      var whole := Batch(s, run, kind) != {} && forall a :: a in Batch(s, run, kind) ==> HasFile(s, a);
      if whole then
        && t == s.(runs := s.runs[run := t.runs[run]]) && TaskRuns.IsTerminal(t.runs[run].status)
        && t.runs[run] == s.runs[run].(status := TaskRuns.Completed, outcome := TaskRuns.Success, completedAt := Some(now))
      else t == s
  {
    if a :| a in Batch(s, run, kind) { assert InBatch(s.assets[a], run, kind); }
    if BatchReady(s.assets, run, kind) {
      var a :| a in s.assets && InBatch(s.assets[a], run, kind);
      assert a in Batch(s, run, kind);
    }
    assert forall a :: a in s.assets ==> (InBatch(s.assets[a], run, kind) <==> a in Batch(s, run, kind));
  }

  // ---------------------------------------------------------------- deletion

  predicate Live(s: State, a: AssetId) { a in s.assets && s.assets[a].status in {Pending, Materializing, Available, Failed} }

  /** A delete request works for every known asset. Unless it is deleted already, it has a deletion job afterwards, which
      anyone may claim at once if it is new, and a live asset is revoked; nothing else changes but its file's count. */
  lemma {:induction false} RequestQueuesADeletion(s: State, a: AssetId, later: Time, lease: int)
    requires Inv(s)
    ensures Works(RequestDeleteStep(s, a)) <==> a in s.assets
    ensures a in s.assets && s.assets[a].status != AssetStatus.Deleted ==>
      var t := RequestDeleteStep(s, a).state;
      && a in t.deletions && t.deletions == s.deletions[a := t.deletions[a]] && t.jobs == s.jobs
      && (if a in s.deletions then t.deletions[a] == s.deletions[a]
          else !t.deletions[a].purge && Works(ClaimDeletionStep(t, later, a, lease)))
      && t.assets == (if Live(s, a) then s.assets[a := s.assets[a].(status := DeleteRequested)] else s.assets)
      && (!Live(s, a) || s.assets[a].objectId.None? ==> t.objects == s.objects)
    ensures a in s.assets && s.assets[a].status == AssetStatus.Deleted ==> RequestDeleteStep(s, a).state == s
  {
    hide Inv, DropReference;
  }

  /** The file of an asset that is given up loses one reference, and with the last one it may be deleted. */
  lemma {:induction false} RequestGivesUpTheFile(s: State, a: AssetId, o: ObjectId)
    requires Inv(s) && Live(s, a) && s.assets[a].objectId == Some(o)
    ensures var t := RequestDeleteStep(s, a).state;
      && o in s.objects && t.objects == s.objects[o := t.objects[o]] && t.objects[o].refCount == s.objects[o].refCount - 1
      && (Works(PrepareDeletionStep(t, o)) <==> LiveRefs(s.assets, o) == {a})
  {
    hide Inv, EnsureDeletion, LiveRefs;
    LastReference(s, a, o);
  }

  lemma {:induction false} LastReference(s: State, a: AssetId, o: ObjectId)
    requires Inv(s) && Live(s, a) && s.assets[a].objectId == Some(o)
    ensures o in s.objects && s.objects[o].state == Ready && s.objects[o].refCount > 0
    ensures s.objects[o].refCount == 1 <==> LiveRefs(s.assets, o) == {a}
  {
    FileIsCounted(s, a, o);
    assert a in LiveRefs(s.assets, o);
    hide Inv;
    if LiveRefs(s.assets, o) != {a} { TwoRefs(LiveRefs(s.assets, o), a); } else { assert |LiveRefs(s.assets, o)| == 1; }
  }

  lemma {:induction false} FileIsCounted(s: State, a: AssetId, o: ObjectId)
    requires Inv(s) && a in s.assets && s.assets[a].objectId == Some(o)
    ensures o in s.objects && s.objects[o].refCount == |LiveRefs(s.assets, o)|
    ensures s.objects[o].state == Ready <==> LiveRefs(s.assets, o) != {}
  {
  }

  lemma {:induction false} TwoRefs(refs: set<AssetId>, a: AssetId)
    requires a in refs && refs != {a}
    ensures |refs| > 1
  {
    var b :| b in refs && b != a;
    assert refs == (refs - {a, b}) + {a, b};
  }

  /** A claim of a deletion lasts its lease, like one of a job. */
  lemma {:induction false} DeletionClaimLasts(s: State, now: Time, a: AssetId, lease: int, later: Time, again: int)
    requires Works(ClaimDeletionStep(s, now, a, lease)) && now <= later && again > 0
    ensures var t := ClaimDeletionStep(s, now, a, lease).state;
      && (Works(ClaimDeletionStep(t, later, a, again)) <==> later >= now + Length(lease))
      && (Works(RenewDeletionStep(t, later, a, s.nextToken, again)) <==> later < now + Length(lease))
      && (Works(CompleteDeletionStep(t, later, a, s.nextToken)) <==> later < now + Length(lease))
      && t == s.(deletions := s.deletions[a := t.deletions[a]], nextToken := s.nextToken + 1)
      && t.deletions[a].purge == s.deletions[a].purge
  {
    hide CompleteAssetDelete, HardDelete;
  }

  /** A deletion worker under a live lease can move its end. */
  lemma {:induction false} DeletionMayBeRenewed(s: State, now: Time, a: AssetId, token: Token, lease: int, later: Time, again: int)
    requires a in s.deletions && Leased(s.deletions[a].job, token, now) && lease > 0 && again > 0
    ensures var t := RenewDeletionStep(s, now, a, token, lease).state;
      && Works(RenewDeletionStep(s, now, a, token, lease)) && a in t.deletions
      && (Works(RenewDeletionStep(t, later, a, token, again)) <==> later < now + lease)
      && t == s.(deletions := s.deletions[a := s.deletions[a].(job := t.deletions[a].job)])
  {
  }

  /** It can give the deletion back for a later attempt, or for one at once; the asset is marked, unless it is deleted. */
  lemma {:induction false} DeletionMayBeGivenBack(
    s: State, now: Time, a: AssetId, token: Token, next: Option<Time>, later: Time, lease: int)
    requires Inv(s) && a in s.deletions && Leased(s.deletions[a].job, token, now)
    ensures var t := FailDeletionStep(s, now, a, token, next).state;
      && Works(FailDeletionStep(s, now, a, token, next)) && a in s.assets && a in t.deletions
      && (Works(ClaimDeletionStep(t, later, a, lease)) <==> next.Some? ==> next.value <= later)
      && t.deletions == s.deletions[a := s.deletions[a].(job := t.deletions[a].job)]
      && t.assets == (if s.assets[a].status == AssetStatus.Deleted then s.assets
                      else s.assets[a := s.assets[a].(status := AssetStatus.DeleteFailed)])
  {
    DeletionsHaveAssets(s, a);
    hide Inv, SetDeadState, Revoked;
  }

  /** The file of an asset whose deletion failed or is retried can be cleared for deletion unless somebody refers to it. */
  lemma {:induction false} FileStaysDeletable(s: State, now: Time, a: AssetId, token: Token, next: Option<Time>, o: ObjectId)
    requires Inv(s) && a in s.assets && s.assets[a].objectId == Some(o)
    ensures Works(FailDeletionStep(s, now, a, token, next)) && s.assets[a].status != AssetStatus.Deleted ==>
      var t := FailDeletionStep(s, now, a, token, next).state;
      && (Works(PrepareDeletionStep(t, o)) <==> LiveRefs(s.assets, o) == {})
      && o in s.objects && o in t.objects
      && t.objects[o].deleteAttempts == s.objects[o].deleteAttempts + if LiveRefs(s.assets, o) == {} then 1 else 0
    ensures Works(RetryDeletionStep(s, now, a)) && RetryDeletionStep(s, now, a).state != s ==>
      (Works(PrepareDeletionStep(RetryDeletionStep(s, now, a).state, o)) <==> LiveRefs(s.assets, o) == {})
  {
    FileIsCounted(s, a, o);
    DeadFileIsDeletable(s.objects, o, ObjectState.DeleteFailed, 1);
    DeadFileIsDeletable(s.objects, o, DeletePending, 0);
    hide Inv, LiveRefs, Revoked, Abandoned, Requeued, Busy, Leased, SetDeadState, Deletable;
  }

  lemma {:induction false} DeadFileIsDeletable(objects: map<ObjectId, StoredObject>, o: ObjectId, state: ObjectState, attempts: nat)
    requires o in objects && Deletable(state)
    ensures var t := SetDeadState(objects, o, state, attempts);
      && o in t && (Deletable(t[o].state) && t[o].refCount <= 0 <==> objects[o].refCount <= 0)
      && t[o].deleteAttempts == objects[o].deleteAttempts + if objects[o].refCount <= 0 then attempts else 0
  {
  }

  /** A retry of a deletion leaves a running worker alone, and otherwise makes the deletion claimable at once. */
  lemma {:induction false} RetryReopensDeletion(s: State, now: Time, a: AssetId, later: Time, lease: int)
    ensures Works(RetryDeletionStep(s, now, a)) <==> a in s.assets && AwaitsDeletion(s.assets[a].status)
    ensures Works(RetryDeletionStep(s, now, a)) ==>
      var t := RetryDeletionStep(s, now, a).state;
      if a in s.deletions && s.deletions[a].job.status == JobRunning && s.deletions[a].job.expires.Some?
         && s.deletions[a].job.expires.value > now then t == s
      else Works(ClaimDeletionStep(t, later, a, lease)) && t.assets == s.assets[a := s.assets[a].(status := DeleteRequested)]
           && (a in s.deletions ==> t.deletions[a].purge == s.deletions[a].purge)
  {
    hide SetDeadState;
  }

  /** A finished deletion leaves the asset deleted and its job done, and a file nobody else uses deleted; with a purge asked
      for, the asset, both jobs and its slot are gone. */
  lemma {:induction false} CompletedDeletionEnds(s: State, now: Time, a: AssetId, token: Token, later: Time, lease: int)
    requires Inv(s) && a in s.deletions && Leased(s.deletions[a].job, token, now)
    ensures Works(CompleteDeletionStep(s, now, a, token)) && a in s.assets
    ensures var t := CompleteDeletionStep(s, now, a, token).state;
      if s.deletions[a].purge then
        a !in t.assets && a !in t.jobs && a !in t.deletions && (s.assets[a].taskRun, s.assets[a].ordinal) !in t.ordinals
      else
        && a in t.assets && t.assets == s.assets[a := s.assets[a].(status := AssetStatus.Deleted)]
        && a in t.deletions && !Works(ClaimDeletionStep(t, later, a, lease))
        && (s.assets[a].objectId.Some? && s.assets[a].status != AssetStatus.Deleted ==>
              var o := s.assets[a].objectId.value;
              o in t.objects && (t.objects[o].state == (if LiveRefs(s.assets, o) == {} then ObjectState.Deleted else Ready)))
  {
    DeletionsHaveAssets(s, a);
    if s.assets[a].objectId.Some? {
      var o := s.assets[a].objectId.value;
      assert o in s.objects && s.objects[o].refCount == |LiveRefs(s.assets, o)|;
    }
    hide Inv, LiveRefs, OtherRefs;
  }

  /** A purge of a deleted asset removes its rows at once; of any other known one it queues a deletion that will. */
  lemma {:induction false} PurgeRemovesNowOrLater(s: State, a: AssetId)
    requires Inv(s)
    ensures Works(RequestPurgeStep(s, a))
    ensures var t := RequestPurgeStep(s, a).state;
      if a !in s.assets then t == s
      else if s.assets[a].status == AssetStatus.Deleted then
        a !in t.assets && a !in t.jobs && a !in t.deletions && (s.assets[a].taskRun, s.assets[a].ordinal) !in t.ordinals
      else
        && a in t.deletions && t.deletions[a].purge
        && t.(deletions := t.deletions[a := t.deletions[a].(purge := false)]) ==
           var u := RequestDeleteStep(s, a).state; u.(deletions := u.deletions[a := u.deletions[a].(purge := false)])
  {
    hide Inv, DropReference, LiveRefs, OtherRefs;
  }

  /** Removing an asset's rows keeps its file exactly if another asset names it. */
  lemma {:induction false} RemovalKeepsSharedFiles(s: State, a: AssetId, o: ObjectId)
    requires a in s.assets && s.assets[a].objectId == Some(o) && o in s.objects
    ensures var t := HardDelete(s, a);
      && (o in t.objects <==> exists b :: b in s.assets && b != a && s.assets[b].objectId == Some(o))
      && t.objects - {o} == s.objects - {o}
  {
    NamesFile(s, a, o);
    hide Revoked, OtherRefs;
  }

  lemma {:induction false} NamesFile(s: State, a: AssetId, o: ObjectId)
    ensures OtherRefs(s.assets, o, a) != {} <==> exists b :: b in s.assets && b != a && s.assets[b].objectId == Some(o)
  {
    if b :| b in s.assets && b != a && s.assets[b].objectId == Some(o) { assert b in OtherRefs(s.assets, o, a); }
    if b :| b in OtherRefs(s.assets, o, a) { assert b in s.assets && b != a; }
  }

  /** A file can be cleared for deletion exactly when it has been given up, no asset refers to it, and it is not gone. */
  lemma {:induction false} PreparedExactlyWhenGivenUp(s: State, o: ObjectId)
    requires Inv(s)
    ensures Works(PrepareDeletionStep(s, o)) <==>
      o in s.objects && LiveRefs(s.assets, o) == {}
      && s.objects[o].state in {DeletePending, Deleting, ObjectState.DeleteFailed}
    ensures Works(PrepareDeletionStep(s, o)) ==>
      PrepareDeletionStep(s, o).state == s.(objects := s.objects[o := s.objects[o].(state := Deleting)])
  {
    if o in s.objects { assert s.objects[o].refCount == |LiveRefs(s.assets, o)|; }
    hide Inv, LiveRefs;
  }

  // ---------------------------------------------------------------- every request comes to its worker

  /** From a delete request of the only asset with a file, one worker can claim the deletion, delete the file and finish. */
  lemma {:induction false} DeletionRunsThrough(s: State, now: Time, a: AssetId, o: ObjectId)
    requires Inv(s) && Live(s, a) && s.assets[a].objectId == Some(o) && LiveRefs(s.assets, o) == {a} && a !in s.deletions
    ensures var s1 := RequestDeleteStep(s, a).state;
      var s2 := ClaimDeletionStep(s1, now, a, 0).state;
      var s3 := PrepareDeletionStep(s2, o).state;
      var s4 := CompleteDeletionStep(s3, now, a, s1.nextToken).state;
      && Works(ClaimDeletionStep(s1, now, a, 0)) && Works(PrepareDeletionStep(s2, o))
      && Works(CompleteDeletionStep(s3, now, a, s1.nextToken))
      && a in s4.assets && s4.assets[a].status == AssetStatus.Deleted
      && o in s4.objects && s4.objects[o].state == ObjectState.Deleted
  {
    hide Inv, LiveRefs, RequestDeleteStep, ClaimDeletionStep, PrepareDeletionStep, CompleteDeletionStep;
    var s1 := RequestDeleteStep(s, a).state;
    RequestQueuesADeletion(s, a, now, 0);
    RequestGivesUpTheFile(s, a, o);
    RequestDeleteKeeps(s, a);
    var s2 := ClaimDeletionStep(s1, now, a, 0).state;
    ClaimedDeletion(s1, now, a, 0, o);
    ClaimDeletionKeeps(s1, now, a, 0);
    PreparedExactlyWhenGivenUp(s2, o);
    PrepareKeeps(s2, o);
    var s3 := PrepareDeletionStep(s2, o).state;
    CompletedDeletionEnds(s3, now, a, s1.nextToken, now, 0);
  }

  lemma {:induction false} ClaimedDeletion(s: State, now: Time, a: AssetId, lease: int, o: ObjectId)
    requires Works(ClaimDeletionStep(s, now, a, lease))
    ensures var t := ClaimDeletionStep(s, now, a, lease).state;
      && a in s.deletions && a in t.deletions && Leased(t.deletions[a].job, s.nextToken, now)
      && t == s.(deletions := t.deletions, nextToken := t.nextToken) && t.deletions[a].purge == s.deletions[a].purge
      && PrepareDeletionStep(t, o).err == PrepareDeletionStep(s, o).err
  {
  }

  // ---------------------------------------------------------------- what a refusal says

  /** Slots: a blank identity or a task without a provider's answer, a missing task, and a slot that is taken. */
  lemma {:induction false} SlotRefusalsSayWhy(
    s: State, now: Time, r: RunId, kind: Kind, ordinal: nat, lease: int, urls: seq<Option<Url>>)
    ensures CreateForMaterializationStep(s, now, r, kind, ordinal, lease).err in {None, Some(DuplicateKey)}
    ensures EnsureResultMediaStep(s, r, kind, urls).err == if r == 0 then Some(InvalidIdentity) else None
    ensures var err := EnsureContentMediaStep(s, r, kind).err;
      && (err == Some(InvalidIdentity) <==> r == 0 || kind == NoKind || (r in s.runs && s.runs[r].providerTaskId.None?))
      && (err == Some(TaskError(TaskRuns.NotFound)) <==> r != 0 && kind != NoKind && r !in s.runs)
      && (err == Some(DuplicateKey) ==> (r, 0) in s.ordinals)
      && err in {None, Some(InvalidIdentity), Some(TaskError(TaskRuns.NotFound)), Some(DuplicateKey)}
  {
    hide EnsureSlots, EnsureSlot, AddAsset;
  }

  /** The worker of the job has lost its lease, or never had it. */
  predicate Displaced(s: State, now: Time, a: AssetId, token: Token) { a !in s.jobs || !Leased(s.jobs[a], token, now) }

  /** Workers: nothing to claim, a lease that is not theirs, and an asset that is unknown or revoked. */
  lemma {:induction false} WorkerRefusalsSayWhy(s: State, now: Time, a: AssetId, token: Token, next: Option<Time>, lease: int)
    ensures ClaimJobStep(s, now, a, lease).err in {None, Some(JobUnavailable)}
    ensures ClaimAssetStep(s, now, a, lease).err in {None, Some(JobUnavailable)}
    ensures RenewJobStep(s, now, a, token, lease).err ==
      if lease <= 0 || Displaced(s, now, a, token) then Some(LeaseMismatch) else None
    ensures CompleteJobStep(s, now, a, token).err in {None, Some(LeaseMismatch)}
    ensures FailJobStep(s, now, a, token, next).err in {None, Some(LeaseMismatch)}
    ensures var err := FailWithAssetStep(s, now, a, token, next).err;
      err in {None, Some(LeaseMismatch), Some(AssetNotFound)} && (err == Some(LeaseMismatch) <==> Displaced(s, now, a, token))
    ensures RetryMaterializationStep(s, now, a).err in {None, Some(AssetNotFound)}
  {
    hide Claimable, Leased, Abandoned, Requeued, Finished, Busy;
  }

  /** A mark without its asset or file, one of an asset or file that is gone, and a commit without its lease. */
  lemma {:induction false} MarkRefusalsSayWhy(s: State, now: Time, a: AssetId, token: Token, o: ObjectId)
    requires Inv(s)
    ensures var err := MarkAvailableStep(s, a, o).err;
      && err in {None, Some(AssetNotFound), Some(AssetGone)}
      && (err == Some(AssetNotFound) <==> a !in s.assets || (Live(s, a) && o !in s.objects))
    ensures var err := CommitStep(s, now, a, token, token).err;
      err in {None, Some(LeaseMismatch), Some(AssetGone)} && (err == Some(LeaseMismatch) <==> Displaced(s, now, a, token))
  {
    hide Inv, LeaveObject, JoinObject, LiveRefs, Leased, CompleteTaskStep;
    if !Displaced(s, now, a, token) {
      LeasedByOwner(s.jobs[a], token, now);
      CommitIsFresh(s, a, token);
      var stored := s.(jobs := s.jobs[a := Finished(s.jobs[a])], objects := s.objects[token := StoredObject(Ready, 1, 0)]);
      CompletionTouchesRuns(MarkAvailableStep(stored, a, token).state, now, s.assets[a].taskRun, s.assets[a].kind);
    }
  }

  lemma {:induction false} LeasedByOwner(job: Job, token: Token, now: Time)
    requires Leased(job, token, now)
    ensures job.owner == Some(token)
  {
  }

  /** Deletions: an asset that is unknown or does not wait for its deletion, a lease that is not theirs, and a file that must
      not be cleared. */
  lemma {:induction false} DeletionRefusalsSayWhy(
    s: State, now: Time, a: AssetId, token: Token, o: ObjectId, next: Option<Time>, lease: int)
    requires Inv(s)
    ensures RequestDeleteStep(s, a).err == if a in s.assets then None else Some(AssetNotFound)
    ensures ClaimDeletionStep(s, now, a, lease).err in {None, Some(JobUnavailable)}
    ensures RenewDeletionStep(s, now, a, token, lease).err in {None, Some(LeaseMismatch)}
    ensures lease <= 0 ==> RenewDeletionStep(s, now, a, token, lease).err == Some(LeaseMismatch)
    ensures CompleteDeletionStep(s, now, a, token).err in {None, Some(LeaseMismatch)}
    ensures FailDeletionStep(s, now, a, token, next).err in {None, Some(LeaseMismatch)}
    ensures RetryDeletionStep(s, now, a).err in {None, Some(AssetNotFound)}
    ensures PrepareDeletionStep(s, o).err in {None, Some(NotPrepared)}
  {
    if a in s.deletions { DeletionsHaveAssets(s, a); }
    hide Inv, HardDelete, CompleteAssetDelete, SetDeadState, DropReference, Claimable, Leased, Abandoned, Requeued, Finished, Busy;
  }

  /** Completing a task needs one: a blank and an unknown id are told apart. */
  lemma {:induction false} CompletionRefusalsSayWhy(s: State, now: Time, run: RunId, kind: Kind)
    ensures var err := CompleteTaskStep(s, now, run, kind).err;
      && (err == Some(InvalidIdentity) <==> run == 0)
      && (err == Some(TaskError(TaskRuns.NotFound)) <==> run != 0 && run !in s.runs)
      && err in {None, Some(InvalidIdentity), Some(TaskError(TaskRuns.NotFound))}
  {
    hide BatchReady, TaskRuns.Promoted, TaskRuns.IsTerminal;
  }
}
