/** What every media transaction keeps, over the tables of `Media`. */
module MediaInvariant {
  import opened Wrappers
  import TaskRuns
  import opened Media

  // ---------------------------------------------------------------- invariant

  /** Counts are exact, and Ready means referenced. */
  ghost predicate Counted(assets: map<AssetId, Asset>, objects: map<ObjectId, StoredObject>) {
    forall o :: o in objects ==>
      && objects[o].refCount == |LiveRefs(assets, o)|
      && (objects[o].state == Ready <==> objects[o].refCount > 0)
  }

  ghost predicate Linked(assets: map<AssetId, Asset>, objects: map<ObjectId, StoredObject>) {
    forall a :: a in assets && assets[a].objectId.Some? ==> assets[a].objectId.value in objects
  }

  /** The unique index on (task_run_id, ordinal) and the asset rows agree. */
  ghost predicate Indexed(assets: map<AssetId, Asset>, ordinals: map<(RunId, nat), AssetId>, next: AssetId) {
    && (forall a :: a in assets ==>
          && a < next
          && (assets[a].taskRun, assets[a].ordinal) in ordinals
          && ordinals[(assets[a].taskRun, assets[a].ordinal)] == a)
    && (forall k :: k in ordinals ==>
          && ordinals[k] in assets
          && assets[ordinals[k]].taskRun == k.0
          && assets[ordinals[k]].ordinal == k.1)
  }

  ghost predicate JobRow(job: Job, objectIds: set<ObjectId>, bound: Token) {
    && (job.owner.None? <==> job.expires.None?)
    && (job.owner.Some? ==> job.status == JobRunning && job.owner.value < bound && job.owner.value !in objectIds)
  }

  /** Materialization leases: no token holds two jobs, and none has an object yet. */
  ghost predicate JobsOwned(jobs: map<AssetId, Job>, assetIds: set<AssetId>, objectIds: set<ObjectId>, bound: Token) {
    && jobs.Keys <= assetIds
    && (forall a :: a in jobs ==> JobRow(jobs[a], objectIds, bound))
    && (forall a, b :: a in jobs && b in jobs && a != b && jobs[a].owner.Some? ==> jobs[a].owner != jobs[b].owner)
    && (forall o :: o in objectIds ==> o < bound)
  }

  /** Only revoked assets have deletion jobs. */
  ghost predicate DeletionsOwned(deletions: map<AssetId, DeletionJob>, assets: map<AssetId, Asset>, bound: Token) {
    forall a :: a in deletions ==>
      && a in assets && Revoked(assets[a].status)
      && (deletions[a].job.owner.None? <==> deletions[a].job.expires.None?)
      && (deletions[a].job.owner.Some? ==> deletions[a].job.owner.value < bound)
  }

  /** An asset whose deletion was requested or has failed has a deletion job that is not finished. */
  ghost predicate DeletionsQueued(deletions: map<AssetId, DeletionJob>, assets: map<AssetId, Asset>) {
    forall a :: a in assets && AwaitsDeletion(assets[a].status) ==>
      a in deletions && deletions[a].job.status != JobSucceeded
  }

  predicate AwaitsDeletion(status: AssetStatus) { status == DeleteRequested || status == AssetStatus.DeleteFailed }

  ghost predicate RunsInOrder(runs: map<RunId, TaskRuns.TaskRun>, bound: Token) {
    TaskRuns.Inv(TaskRuns.State(runs, bound))
  }

  ghost predicate Inv(s: State) {
    && Counted(s.assets, s.objects)
    && Linked(s.assets, s.objects)
    && Indexed(s.assets, s.ordinals, s.nextAsset)
    && JobsOwned(s.jobs, s.assets.Keys, s.objects.Keys, s.nextToken)
    && DeletionsOwned(s.deletions, s.assets, s.nextToken)
    && DeletionsQueued(s.deletions, s.assets)
    && RunsInOrder(s.runs, s.nextToken)
  }

  /** How callers use the two open-ended transactions: a worker commits the object named by its own lease,
      and a bare availability mark only shares an object that is Ready. */
  predicate Allowed(s: State, op: Op) {
    match op
    case Commit(_, token, o) => o == token
    case MarkAvailable(_, o) => o in s.objects ==> s.objects[o].state == Ready
    case _ => true
  }

  // ---------------------------------------------------------------- counting references

  predicate PointsAt(asset: Asset, o: ObjectId) {
    asset.objectId == Some(o) && !Revoked(asset.status)
  }

  /** Writing one asset row moves an object's count by what the row stops and starts pointing at. */
  lemma {:induction false} LiveRefsPut(assets: map<AssetId, Asset>, a: AssetId, n: Asset, o: ObjectId)
    ensures |LiveRefs(assets[a := n], o)| ==
            |LiveRefs(assets, o)| - (if a in assets && PointsAt(assets[a], o) then 1 else 0) + (if PointsAt(n, o) then 1 else 0)
  {
    var others := LiveRefs(assets, o) - {a};
    assert LiveRefs(assets, o) == if a in assets && PointsAt(assets[a], o) then others + {a} else others;
    assert LiveRefs(assets[a := n], o) == if PointsAt(n, o) then others + {a} else others;
  }

  lemma {:induction false} LiveRefsDrop(assets: map<AssetId, Asset>, a: AssetId, o: ObjectId)
    requires a in assets && Revoked(assets[a].status)
    ensures LiveRefs(assets - {a}, o) == LiveRefs(assets, o)
  {
  }

  lemma {:induction false} LiveRefIsCounted(assets: map<AssetId, Asset>, objects: map<ObjectId, StoredObject>, a: AssetId)
    requires Counted(assets, objects) && Linked(assets, objects)
    requires a in assets && assets[a].objectId.Some? && !Revoked(assets[a].status)
    ensures objects[assets[a].objectId.value].refCount > 0
    ensures objects[assets[a].objectId.value].state == Ready
  {
    assert a in LiveRefs(assets, assets[a].objectId.value);
  }

  /** Writing a row that points where the old one did, and is live when the old one was, moves no count. */
  lemma {:induction false} QuietPut(assets: map<AssetId, Asset>, objects: map<ObjectId, StoredObject>, a: AssetId, n: Asset)
    requires Counted(assets, objects) && Linked(assets, objects) && a in assets
    requires n.objectId == assets[a].objectId && Revoked(n.status) == Revoked(assets[a].status)
    ensures Counted(assets[a := n], objects) && Linked(assets[a := n], objects)
  {
    hide LiveRefs;
    forall o | o in objects ensures |LiveRefs(assets[a := n], o)| == |LiveRefs(assets, o)| {
      LiveRefsPut(assets, a, n, o);
    }
  }

  lemma {:induction false} NewAssetIsQuiet(assets: map<AssetId, Asset>, objects: map<ObjectId, StoredObject>, a: AssetId, n: Asset)
    requires Counted(assets, objects) && Linked(assets, objects) && a !in assets && n.objectId.None?
    ensures Counted(assets[a := n], objects) && Linked(assets[a := n], objects)
  {
    hide LiveRefs;
    forall o | o in objects ensures |LiveRefs(assets[a := n], o)| == |LiveRefs(assets, o)| {
      LiveRefsPut(assets, a, n, o);
    }
  }

  lemma {:induction false} RevokeCounts(assets: map<AssetId, Asset>, objects: map<ObjectId, StoredObject>, a: AssetId, n: Asset)
    requires Counted(assets, objects) && Linked(assets, objects) && a in assets && !Revoked(assets[a].status)
    requires n.objectId == assets[a].objectId && Revoked(n.status)
    ensures var after := if n.objectId.Some? then DropReference(objects, n.objectId.value) else objects;
            Counted(assets[a := n], after) && Linked(assets[a := n], after) && after.Keys == objects.Keys
  {
    hide LiveRefs;
    if n.objectId.Some? { LiveRefIsCounted(assets, objects, a); }
    forall o | o in objects
      ensures |LiveRefs(assets[a := n], o)| == |LiveRefs(assets, o)| - if n.objectId == Some(o) then 1 else 0
    {
      LiveRefsPut(assets, a, n, o);
    }
  }

  /** Rewriting the state of an unreferenced object to anything but Ready is harmless. */
  lemma {:induction false} DeadStateCounts(assets: map<AssetId, Asset>, objects: map<ObjectId, StoredObject>, o: ObjectId, state: ObjectState, attempts: nat)
    requires Counted(assets, objects) && Linked(assets, objects) && state != Ready
    ensures var after := SetDeadState(objects, o, state, attempts);
            Counted(assets, after) && Linked(assets, after) && after.Keys == objects.Keys
  {
  }

  lemma {:induction false} FinishDeleteCounts(assets: map<AssetId, Asset>, objects: map<ObjectId, StoredObject>, o: ObjectId)
    requires Counted(assets, objects) && Linked(assets, objects)
    ensures var after := FinishDelete(objects, o);
            Counted(assets, after) && Linked(assets, after) && after.Keys == objects.Keys
  {
  }

  /** An asset that moves to an object with a live reference, leaving its old one behind. */
  lemma {:induction false} MoveCounts(assets: map<AssetId, Asset>, objects: map<ObjectId, StoredObject>, a: AssetId, o: ObjectId, n: Asset)
    requires Counted(assets, objects) && Linked(assets, objects)
    requires a in assets && !Revoked(assets[a].status) && !Revoked(n.status)
    requires o in objects && objects[o].refCount > 0 && assets[a].objectId != Some(o) && n.objectId == Some(o)
    ensures var left := if assets[a].objectId.Some? then LeaveObject(objects, assets[a].objectId.value) else objects;
            var after := JoinObject(left, o, |LiveRefs(assets, o) - {a}|);
            Counted(assets[a := n], after) && Linked(assets[a := n], after) && after.Keys == objects.Keys
  {
    assert LiveRefs(assets, o) - {a} == LiveRefs(assets, o);
    hide LiveRefs, Revoked;
    var left := if assets[a].objectId.Some? then LeaveObject(objects, assets[a].objectId.value) else objects;
    var after := JoinObject(left, o, |LiveRefs(assets, o) - {a}|);
    if assets[a].objectId.Some? { LiveRefIsCounted(assets, objects, a); }
    LinkedAfterMove(assets, objects, a, n, after);
    hide Linked;
    forall p | p in after
      ensures after[p].refCount == |LiveRefs(assets[a := n], p)| && (after[p].state == Ready <==> after[p].refCount > 0)
    {
      LiveRefsPut(assets, a, n, p);
    }
  }

  lemma {:induction false} LinkedAfterMove(
    assets: map<AssetId, Asset>, objects: map<ObjectId, StoredObject>, a: AssetId, n: Asset, after: map<ObjectId, StoredObject>)
    requires Linked(assets, objects) && after.Keys == objects.Keys && n.objectId.Some? && n.objectId.value in objects
    ensures Linked(assets[a := n], after)
  {
  }

  /** The same move onto an object the transaction has just created with a count of one. */
  lemma {:induction false} FirstMoveCounts(assets: map<AssetId, Asset>, objects: map<ObjectId, StoredObject>, a: AssetId, o: ObjectId, n: Asset)
    requires Counted(assets, objects) && Linked(assets, objects)
    requires a in assets && !Revoked(assets[a].status) && !Revoked(n.status)
    requires o !in objects && n.objectId == Some(o)
    ensures var created := objects[o := StoredObject(Ready, 1, 0)];
            var left := if assets[a].objectId.Some? then LeaveObject(created, assets[a].objectId.value) else created;
            var after := JoinObject(left, o, |LiveRefs(assets, o) - {a}|);
            Counted(assets[a := n], after) && Linked(assets[a := n], after) && after.Keys == objects.Keys + {o}
  {
    assert LiveRefs(assets, o) == {};
    hide LiveRefs;
    if assets[a].objectId.Some? { LiveRefIsCounted(assets, objects, a); }
    forall p | p in objects || p == o
      ensures |LiveRefs(assets[a := n], p)| ==
              |LiveRefs(assets, p)| - (if assets[a].objectId == Some(p) then 1 else 0) + (if p == o then 1 else 0)
    {
      LiveRefsPut(assets, a, n, p);
    }
  }

  // ---------------------------------------------------------------- index, jobs, deletion jobs

  lemma {:induction false} IndexRow(assets: map<AssetId, Asset>, ordinals: map<(RunId, nat), AssetId>, next: AssetId, a: AssetId, n: Asset)
    requires Indexed(assets, ordinals, next) && a in assets
    requires n.taskRun == assets[a].taskRun && n.ordinal == assets[a].ordinal
    ensures Indexed(assets[a := n], ordinals, next)
    ensures assets[a := n].Keys == assets.Keys
  {
  }

  lemma {:induction false} IndexAdd(assets: map<AssetId, Asset>, ordinals: map<(RunId, nat), AssetId>, next: AssetId, n: Asset)
    requires Indexed(assets, ordinals, next) && (n.taskRun, n.ordinal) !in ordinals
    ensures Indexed(assets[next := n], ordinals[(n.taskRun, n.ordinal) := next], next + 1)
  {
  }

  lemma {:induction false} IndexDrop(assets: map<AssetId, Asset>, ordinals: map<(RunId, nat), AssetId>, next: AssetId, a: AssetId)
    requires Indexed(assets, ordinals, next) && a in assets
    ensures Indexed(assets - {a}, ordinals - {(assets[a].taskRun, assets[a].ordinal)}, next)
  {
  }

  /** A job row written without a new owner. */
  lemma {:induction false} JobsPut(jobs: map<AssetId, Job>, assetIds: set<AssetId>, objectIds: set<ObjectId>, bound: Token, a: AssetId, n: Job)
    requires JobsOwned(jobs, assetIds, objectIds, bound) && a in assetIds
    requires (n.owner.None? && n.expires.None?) || (a in jobs && n.owner == jobs[a].owner && n.owner.Some? && n.expires.Some? && n.status == jobs[a].status)
    ensures JobsOwned(jobs[a := n], assetIds, objectIds, bound)
  {
  }

  /** A job row claimed with the next fresh token. */
  lemma {:induction false} JobsClaim(jobs: map<AssetId, Job>, assetIds: set<AssetId>, objectIds: set<ObjectId>, bound: Token, a: AssetId, n: Job)
    requires JobsOwned(jobs, assetIds, objectIds, bound) && a in assetIds
    requires n.owner == Some(bound) && n.expires.Some? && n.status == JobRunning
    ensures JobsOwned(jobs[a := n], assetIds, objectIds, bound + 1)
  {
  }

  lemma {:induction false} JobsWiden(jobs: map<AssetId, Job>, assetIds: set<AssetId>, objectIds: set<ObjectId>, bound: Token, assetIds': set<AssetId>, bound': Token)
    requires JobsOwned(jobs, assetIds, objectIds, bound) && assetIds <= assetIds' && bound <= bound'
    ensures JobsOwned(jobs, assetIds', objectIds, bound')
  {
  }

  /** The holder's token becomes an object id as its lease ends. */
  lemma {:induction false} JobsCommit(jobs: map<AssetId, Job>, assetIds: set<AssetId>, objectIds: set<ObjectId>, bound: Token, a: AssetId, token: Token)
    requires JobsOwned(jobs, assetIds, objectIds, bound) && a in jobs && jobs[a].owner == Some(token)
    ensures token !in objectIds
    ensures JobsOwned(jobs[a := Finished(jobs[a])], assetIds, objectIds + {token}, bound)
  {
    assert JobRow(jobs[a], objectIds, bound);
    var after := jobs[a := Finished(jobs[a])];
    forall b | b in after ensures JobRow(after[b], objectIds + {token}, bound) {
      assert JobRow(jobs[b], objectIds, bound);
    }
  }

  lemma {:induction false} JobsDrop(jobs: map<AssetId, Job>, assetIds: set<AssetId>, objectIds: set<ObjectId>, bound: Token, a: AssetId, objectIds': set<ObjectId>)
    requires JobsOwned(jobs, assetIds, objectIds, bound) && objectIds' <= objectIds
    ensures JobsOwned(jobs - {a}, assetIds - {a}, objectIds', bound)
  {
    forall b | b in jobs ensures JobRow(jobs[b], objectIds', bound) { assert JobRow(jobs[b], objectIds, bound); }
  }

  /** Writing an asset row keeps the deletion jobs as long as a revoked asset stays revoked. */
  lemma {:induction false} DeletionsAsset(deletions: map<AssetId, DeletionJob>, assets: map<AssetId, Asset>, bound: Token, a: AssetId, n: Asset)
    requires DeletionsOwned(deletions, assets, bound)
    requires a in assets && Revoked(assets[a].status) ==> Revoked(n.status)
    ensures DeletionsOwned(deletions, assets[a := n], bound)
  {
  }

  lemma {:induction false} DeletionsPut(deletions: map<AssetId, DeletionJob>, assets: map<AssetId, Asset>, bound: Token, a: AssetId, n: DeletionJob)
    requires DeletionsOwned(deletions, assets, bound) && a in assets && Revoked(assets[a].status)
    requires n.job.owner.None? <==> n.job.expires.None?
    requires n.job.owner.Some? ==> n.job.owner.value < bound
    ensures DeletionsOwned(deletions[a := n], assets, bound)
  {
  }

  lemma {:induction false} DeletionsWiden(deletions: map<AssetId, DeletionJob>, assets: map<AssetId, Asset>, bound: Token, bound': Token)
    requires DeletionsOwned(deletions, assets, bound) && bound <= bound'
    ensures DeletionsOwned(deletions, assets, bound')
  {
  }

  lemma {:induction false} RunsWiden(runs: map<RunId, TaskRuns.TaskRun>, bound: Token, bound': Token)
    requires RunsInOrder(runs, bound) && bound <= bound'
    ensures RunsInOrder(runs, bound')
  {
  }

  /** The token counter may run ahead of every table. */
  lemma {:induction false} NextTokenKeeps(s: State)
    requires Inv(s)
    ensures Inv(s.(nextToken := s.nextToken + 1))
  {
    hide Counted, Linked, Indexed, JobsOwned, DeletionsOwned, RunsInOrder;
    JobsWiden(s.jobs, s.assets.Keys, s.objects.Keys, s.nextToken, s.assets.Keys, s.nextToken + 1);
    DeletionsWiden(s.deletions, s.assets, s.nextToken, s.nextToken + 1);
    RunsWiden(s.runs, s.nextToken, s.nextToken + 1);
  }

  // ---------------------------------------------------------------- transactions, one by one

  lemma {:induction false} AddAssetKeeps(s: State, asset: Asset)
    requires Inv(s) && asset.objectId.None? && (asset.taskRun, asset.ordinal) !in s.ordinals && !AwaitsDeletion(asset.status)
    ensures Inv(AddAsset(s, asset))
  {
    assert s.nextAsset !in s.assets;
    hide Counted, Linked, Indexed, JobsOwned, DeletionsOwned, RunsInOrder;
    NewAssetIsQuiet(s.assets, s.objects, s.nextAsset, asset);
    IndexAdd(s.assets, s.ordinals, s.nextAsset, asset);
    JobsWiden(s.jobs, s.assets.Keys, s.objects.Keys, s.nextToken, s.assets[s.nextAsset := asset].Keys, s.nextToken);
    DeletionsAsset(s.deletions, s.assets, s.nextToken, s.nextAsset, asset);
  }

  lemma {:induction false} EnsureJobKeeps(s: State, a: AssetId)
    requires Inv(s) && a in s.assets
    ensures Inv(EnsureJob(s, a))
  {
    hide Counted, Linked, Indexed, JobsOwned, DeletionsOwned, RunsInOrder;
    JobsPut(s.jobs, s.assets.Keys, s.objects.Keys, s.nextToken, a, NEW_JOB);
  }

  lemma {:induction false} EnsureSlotKeeps(s: State, taskRun: RunId, kind: Kind, ordinal: nat)
    requires Inv(s)
    ensures Inv(EnsureSlot(s, taskRun, kind, ordinal))
  {
    var fresh' := Asset(taskRun, kind, ordinal, Pending, None);
    if (taskRun, ordinal) in s.ordinals {
      assert s.ordinals[(taskRun, ordinal)] in s.assets;
      hide Inv, EnsureJob;
      EnsureJobKeeps(s, s.ordinals[(taskRun, ordinal)]);
    } else {
      hide Inv, EnsureJob;
      AddAssetKeeps(s, fresh');
      EnsureJobKeeps(AddAsset(s, fresh'), s.nextAsset);
    }
  }

  lemma {:induction false} EnsureSlotsKeeps(s: State, taskRun: RunId, kind: Kind, urls: seq<Option<Url>>, n: nat)
    requires Inv(s) && n <= |urls|
    ensures Inv(EnsureSlots(s, taskRun, kind, urls, n))
  {
    hide Inv, EnsureSlot;
    if n == 0 {
    } else {
      EnsureSlotsKeeps(s, taskRun, kind, urls, n - 1);
      EnsureSlotKeeps(EnsureSlots(s, taskRun, kind, urls, n - 1), taskRun, kind, n - 1);
    }
  }

  /** A fresh claim on a job of a known asset. */
  lemma {:induction false} ClaimKeeps(s: State, a: AssetId, n: Job)
    requires Inv(s) && a in s.assets
    requires n.owner == Some(s.nextToken) && n.expires.Some? && n.status == JobRunning
    ensures Inv(s.(jobs := s.jobs[a := n], nextToken := s.nextToken + 1))
  {
    hide Counted, Linked, Indexed, JobsOwned, DeletionsOwned, RunsInOrder;
    JobsClaim(s.jobs, s.assets.Keys, s.objects.Keys, s.nextToken, a, n);
    DeletionsWiden(s.deletions, s.assets, s.nextToken, s.nextToken + 1);
    RunsWiden(s.runs, s.nextToken, s.nextToken + 1);
  }

  lemma {:induction false} JobWriteKeeps(s: State, a: AssetId, n: Job)
    requires Inv(s) && a in s.assets
    requires (n.owner.None? && n.expires.None?) || (a in s.jobs && n.owner == s.jobs[a].owner && n.owner.Some? && n.expires.Some? && n.status == s.jobs[a].status)
    ensures Inv(s.(jobs := s.jobs[a := n]))
  {
    hide Counted, Linked, Indexed, JobsOwned, DeletionsOwned, RunsInOrder;
    JobsPut(s.jobs, s.assets.Keys, s.objects.Keys, s.nextToken, a, n);
  }

  /** Rewriting an asset's status on the same side of revocation. */
  lemma {:induction false} StatusWriteKeeps(s: State, a: AssetId, status: AssetStatus)
    requires Inv(s) && a in s.assets && Revoked(status) == Revoked(s.assets[a].status)
    requires AwaitsDeletion(status) ==> a in s.deletions && s.deletions[a].job.status != JobSucceeded
    ensures Inv(s.(assets := s.assets[a := s.assets[a].(status := status)]))
  {
    hide Counted, Linked, Indexed, JobsOwned, DeletionsOwned, RunsInOrder;
    var n := s.assets[a].(status := status);
    QuietPut(s.assets, s.objects, a, n);
    IndexRow(s.assets, s.ordinals, s.nextAsset, a, n);
    DeletionsAsset(s.deletions, s.assets, s.nextToken, a, n);
  }

  lemma {:induction false} JobsHaveAssets(s: State, a: AssetId)
    requires Inv(s) && a in s.jobs
    ensures a in s.assets
  {
  }

  lemma {:induction false} CreateKeeps(s: State, now: Time, taskRun: RunId, kind: Kind, ordinal: nat, lease: int)
    requires Inv(s)
    ensures Inv(CreateForMaterializationStep(s, now, taskRun, kind, ordinal, lease).state)
  {
    hide Inv;
    if (taskRun, ordinal) !in s.ordinals {
      var asset := Asset(taskRun, if kind == NoKind then UnknownKind else kind, ordinal, Materializing, None);
      AddAssetKeeps(s, asset);
      ClaimKeeps(AddAsset(s, asset), s.nextAsset, Claimed(NEW_JOB, s.nextToken, now + EffectiveLease(lease)));
    }
  }

  lemma {:induction false} ClaimJobKeeps(s: State, now: Time, a: AssetId, lease: int)
    requires Inv(s)
    ensures Inv(ClaimJobStep(s, now, a, lease).state)
  {
    hide Inv;
    if a in s.jobs {
      JobsHaveAssets(s, a);
      ClaimKeeps(s, a, Claimed(s.jobs[a], s.nextToken, now + EffectiveLease(lease)));
    }
  }

  lemma {:induction false} ClaimAssetKeeps(s: State, now: Time, a: AssetId, lease: int)
    requires Inv(s)
    ensures Inv(ClaimAssetStep(s, now, a, lease).state)
  {
    hide Inv;
    if a in s.jobs && a in s.assets && Retryable(s.assets[a].status) {
      StatusWriteKeeps(s, a, Materializing);
      ClaimKeeps(s.(assets := s.assets[a := s.assets[a].(status := Materializing)]), a,
                 Claimed(s.jobs[a], s.nextToken, now + EffectiveLease(lease)));
    }
  }

  /** Renewals, completions and failures under a materialization lease. */
  lemma {:induction false} JobStepKeeps(s: State, now: Time, a: AssetId, token: Token, lease: int, next: Option<Time>)
    requires Inv(s)
    ensures Inv(RenewJobStep(s, now, a, token, lease).state)
    ensures Inv(CompleteJobStep(s, now, a, token).state)
    ensures Inv(FailJobStep(s, now, a, token, next).state)
  {
    hide Inv;
    if a in s.jobs && Leased(s.jobs[a], token, now) {
      JobsHaveAssets(s, a);
      JobWriteKeeps(s, a, s.jobs[a].(expires := Some(now + lease)));
      JobWriteKeeps(s, a, Finished(s.jobs[a]));
      JobWriteKeeps(s, a, Abandoned(s.jobs[a], next));
    }
  }

  lemma {:induction false} FailWithAssetKeeps(s: State, now: Time, a: AssetId, token: Token, next: Option<Time>)
    requires Inv(s)
    ensures Inv(FailWithAssetStep(s, now, a, token, next).state)
  {
    hide Inv;
    if a in s.jobs && a in s.assets && !Revoked(s.assets[a].status) {
      JobStepKeeps(s, now, a, token, 0, next);
      StatusWriteKeeps(FailJobStep(s, now, a, token, next).state, a, AssetStatus.Failed);
    }
  }

  lemma {:induction false} RetryMaterializationKeeps(s: State, now: Time, a: AssetId)
    requires Inv(s)
    ensures Inv(RetryMaterializationStep(s, now, a).state)
  {
    hide Inv;
    if a in s.assets && Retryable(s.assets[a].status) {
      StatusWriteKeeps(s, a, Materializing);
      JobWriteKeeps(s.(assets := s.assets[a := s.assets[a].(status := Materializing)]), a,
                    if a in s.jobs then Requeued(s.jobs[a]) else NEW_JOB);
    }
  }

  /** A live asset takes an object: only the tables of assets and objects change. */
  lemma {:induction false} AttachKeeps(s: State, a: AssetId, n: Asset, objects: map<ObjectId, StoredObject>)
    requires Inv(s) && a in s.assets && !Revoked(s.assets[a].status)
    requires n.taskRun == s.assets[a].taskRun && n.ordinal == s.assets[a].ordinal && !AwaitsDeletion(n.status)
    requires Counted(s.assets[a := n], objects) && Linked(s.assets[a := n], objects) && objects.Keys == s.objects.Keys
    ensures Inv(s.(assets := s.assets[a := n], objects := objects))
  {
    hide Counted, Linked, Indexed, JobsOwned, DeletionsOwned, RunsInOrder;
    IndexRow(s.assets, s.ordinals, s.nextAsset, a, n);
    DeletionsAsset(s.deletions, s.assets, s.nextToken, a, n);
  }

  lemma {:induction false} MarkAvailableKeeps(s: State, a: AssetId, o: ObjectId)
    requires Inv(s) && (o in s.objects ==> s.objects[o].refCount > 0)
    ensures Inv(MarkAvailableStep(s, a, o).state)
  {
    var t := MarkAvailableStep(s, a, o);
    if t.err.None? {
      hide Counted, Linked, Indexed, JobsOwned, DeletionsOwned, RunsInOrder;
      var n := s.assets[a].(objectId := Some(o), status := Available);
      if s.assets[a].objectId == Some(o) {
        QuietPut(s.assets, s.objects, a, n);
      } else {
        MoveCounts(s.assets, s.objects, a, o, n);
      }
      AttachKeeps(s, a, n, t.state.objects);
    }
  }

  lemma {:induction false} PromoteKeeps(runs: map<RunId, TaskRuns.TaskRun>, bound: Token, run: RunId, now: Time)
    requires RunsInOrder(runs, bound) && run in runs
    ensures RunsInOrder(runs[run := TaskRuns.Promoted(runs[run], now)], bound)
  {
  }

  lemma {:induction false} CompleteTaskKeeps(s: State, now: Time, run: RunId, kind: Kind)
    requires Inv(s)
    ensures Inv(CompleteTaskStep(s, now, run, kind).state)
  {
    hide Counted, Linked, Indexed, JobsOwned, DeletionsOwned, RunsInOrder, BatchReady, TaskRuns.StatusRank;
    if run in s.runs { PromoteKeeps(s.runs, s.nextToken, run, now); }
  }

  /** The holder's job ends and its asset takes the object named by the token. */
  lemma {:induction false} CommitTablesKeep(s: State, a: AssetId, token: Token, n: Asset, objects: map<ObjectId, StoredObject>)
    requires Inv(s) && a in s.jobs && s.jobs[a].owner == Some(token) && a in s.assets && !Revoked(s.assets[a].status)
    requires n.taskRun == s.assets[a].taskRun && n.ordinal == s.assets[a].ordinal && !AwaitsDeletion(n.status)
    requires Counted(s.assets[a := n], objects) && Linked(s.assets[a := n], objects) && objects.Keys == s.objects.Keys + {token}
    ensures Inv(s.(jobs := s.jobs[a := Finished(s.jobs[a])], assets := s.assets[a := n], objects := objects))
  {
    hide Counted, Linked, Indexed, JobsOwned, DeletionsOwned, RunsInOrder;
    JobsCommit(s.jobs, s.assets.Keys, s.objects.Keys, s.nextToken, a, token);
    IndexRow(s.assets, s.ordinals, s.nextAsset, a, n);
    DeletionsAsset(s.deletions, s.assets, s.nextToken, a, n);
  }

  /** The object a commit creates is counted once, for the asset that commits it. */
  lemma {:induction false} CommitMarkKeeps(s: State, a: AssetId, token: Token)
    requires Inv(s) && a in s.jobs && s.jobs[a].owner == Some(token)
    ensures token !in s.objects
    ensures var stored := s.(jobs := s.jobs[a := Finished(s.jobs[a])], objects := s.objects[token := StoredObject(Ready, 1, 0)]);
            MarkAvailableStep(stored, a, token).err.None? ==> Inv(MarkAvailableStep(stored, a, token).state)
  {
    assert JobRow(s.jobs[a], s.objects.Keys, s.nextToken);
    hide Counted, Linked, Indexed, JobsOwned, DeletionsOwned, RunsInOrder, LiveRefs;
    var stored := s.(jobs := s.jobs[a := Finished(s.jobs[a])], objects := s.objects[token := StoredObject(Ready, 1, 0)]);
    var marked := MarkAvailableStep(stored, a, token);
    if marked.err.None? {
      var n := s.assets[a].(objectId := Some(token), status := Available);
      assert s.assets[a].objectId != Some(token) by { LinkedAt(s, a); }
      FirstMoveCounts(s.assets, s.objects, a, token, n);
      CommitTablesKeep(s, a, token, n, marked.state.objects);
    }
  }

  lemma {:induction false} LinkedAt(s: State, a: AssetId)
    requires Linked(s.assets, s.objects) && a in s.assets
    ensures s.assets[a].objectId.Some? ==> s.assets[a].objectId.value in s.objects
  {
  }

  lemma {:induction false} CommitKeeps(s: State, now: Time, a: AssetId, token: Token)
    requires Inv(s)
    ensures Inv(CommitStep(s, now, a, token, token).state)
  {
    hide Inv, MarkAvailableStep, CompleteTaskStep;
    if a in s.jobs && Leased(s.jobs[a], token, now) {
      CommitMarkKeeps(s, a, token);
      var stored := s.(jobs := s.jobs[a := Finished(s.jobs[a])], objects := s.objects[token := StoredObject(Ready, 1, 0)]);
      var marked := MarkAvailableStep(stored, a, token);
      if marked.err.None? && a in s.assets {
        CompleteTaskKeeps(marked.state, now, s.assets[a].taskRun, s.assets[a].kind);
      }
    }
  }

  lemma {:induction false} LiveHasNoDeletion(s: State, a: AssetId)
    requires Inv(s) && a in s.assets && !Revoked(s.assets[a].status)
    ensures a !in s.deletions
  {
  }

  lemma {:induction false} NewDeletionIsQueued(deletions: map<AssetId, DeletionJob>, assets: map<AssetId, Asset>, a: AssetId, n: Asset)
    requires DeletionsQueued(deletions, assets) && a !in deletions
    ensures DeletionsQueued(deletions[a := DeletionJob(NEW_JOB, false)], assets[a := n])
  {
  }

  lemma {:induction false} RequestDeleteKeeps(s: State, a: AssetId)
    requires Inv(s)
    ensures Inv(RequestDeleteStep(s, a).state)
  {
    if a in s.assets && !Revoked(s.assets[a].status) {
      LiveHasNoDeletion(s, a);
      hide Counted, Linked, Indexed, JobsOwned, DeletionsOwned, DeletionsQueued, RunsInOrder;
      var n := s.assets[a].(status := DeleteRequested);
      RevokeCounts(s.assets, s.objects, a, n);
      IndexRow(s.assets, s.ordinals, s.nextAsset, a, n);
      DeletionsAsset(s.deletions, s.assets, s.nextToken, a, n);
      DeletionsPut(s.deletions, s.assets[a := n], s.nextToken, a, DeletionJob(NEW_JOB, false));
      NewDeletionIsQueued(s.deletions, s.assets, a, n);
    } else if a in s.assets && a !in s.deletions {
      NewDeletionKeeps(s, a);
    }
  }

  lemma {:induction false} NewDeletionKeeps(s: State, a: AssetId)
    requires Inv(s) && a in s.assets && Revoked(s.assets[a].status) && a !in s.deletions
    ensures Inv(s.(deletions := s.deletions[a := DeletionJob(NEW_JOB, false)]))
  {
    hide Inv;
    DeletionWriteKeeps(s, a, DeletionJob(NEW_JOB, false));
  }

  lemma {:induction false} DeletionWriteKeeps(s: State, a: AssetId, n: DeletionJob)
    requires Inv(s) && a in s.assets && Revoked(s.assets[a].status)
    requires n.job.owner.None? <==> n.job.expires.None?
    requires n.job.owner.Some? ==> n.job.owner.value < s.nextToken
    requires AwaitsDeletion(s.assets[a].status) ==> n.job.status != JobSucceeded
    ensures Inv(s.(deletions := s.deletions[a := n]))
  {
    hide Counted, Linked, Indexed, JobsOwned, DeletionsOwned, RunsInOrder;
    DeletionsPut(s.deletions, s.assets, s.nextToken, a, n);
  }

  lemma {:induction false} DeletionsHaveAssets(s: State, a: AssetId)
    requires Inv(s) && a in s.deletions
    ensures a in s.assets && Revoked(s.assets[a].status)
    ensures s.deletions[a].job.owner.None? <==> s.deletions[a].job.expires.None?
    ensures s.deletions[a].job.owner.Some? ==> s.deletions[a].job.owner.value < s.nextToken
  {
  }

  lemma {:induction false} ClaimDeletionKeeps(s: State, now: Time, a: AssetId, lease: int)
    requires Inv(s)
    ensures Inv(ClaimDeletionStep(s, now, a, lease).state)
  {
    hide Inv;
    if a in s.deletions {
      DeletionsHaveAssets(s, a);
      NextTokenKeeps(s);
      DeletionWriteKeeps(s.(nextToken := s.nextToken + 1), a,
                         s.deletions[a].(job := Claimed(s.deletions[a].job, s.nextToken, now + EffectiveLease(lease))));
    }
  }

  lemma {:induction false} RenewDeletionKeeps(s: State, now: Time, a: AssetId, token: Token, lease: int)
    requires Inv(s)
    ensures Inv(RenewDeletionStep(s, now, a, token, lease).state)
  {
    hide Inv;
    if a in s.deletions && Leased(s.deletions[a].job, token, now) {
      DeletionsHaveAssets(s, a);
      DeletionWriteKeeps(s, a, s.deletions[a].(job := s.deletions[a].job.(expires := Some(now + lease))));
    }
  }

  /** Rewriting the state of an object no live asset points at. */
  lemma {:induction false} DeadObjectKeeps(s: State, o: ObjectId, state: ObjectState, attempts: nat)
    requires Inv(s) && state != Ready
    ensures Inv(s.(objects := SetDeadState(s.objects, o, state, attempts)))
  {
    hide Counted, Linked, Indexed, JobsOwned, DeletionsOwned, RunsInOrder;
    DeadStateCounts(s.assets, s.objects, o, state, attempts);
  }

  lemma {:induction false} FinishDeleteKeeps(s: State, o: ObjectId)
    requires Inv(s)
    ensures Inv(s.(objects := FinishDelete(s.objects, o)))
  {
    hide Counted, Linked, Indexed, JobsOwned, DeletionsOwned, RunsInOrder;
    FinishDeleteCounts(s.assets, s.objects, o);
  }

  lemma {:induction false} FailDeletionKeeps(s: State, now: Time, a: AssetId, token: Token, next: Option<Time>)
    requires Inv(s)
    ensures Inv(FailDeletionStep(s, now, a, token, next).state)
  {
    hide Inv, SetDeadState;
    if a in s.deletions && Leased(s.deletions[a].job, token, now) {
      DeletionsHaveAssets(s, a);
      DeletionWriteKeeps(s, a, s.deletions[a].(job := Abandoned(s.deletions[a].job, next)));
      var t := s.(deletions := s.deletions[a := s.deletions[a].(job := Abandoned(s.deletions[a].job, next))]);
      StatusWriteKeeps(t, a, AssetStatus.DeleteFailed);
      var u := t.(assets := t.assets[a := t.assets[a].(status := AssetStatus.DeleteFailed)]);
      if s.assets[a].objectId.Some? { DeadObjectKeeps(u, s.assets[a].objectId.value, ObjectState.DeleteFailed, 1); }
    }
  }

  lemma {:induction false} AwaitingIsQueued(s: State, a: AssetId)
    requires Inv(s) && a in s.assets && AwaitsDeletion(s.assets[a].status)
    ensures a in s.deletions && s.deletions[a].job.status != JobSucceeded
  {
  }

  lemma {:induction false} RetryDeletionKeeps(s: State, now: Time, a: AssetId)
    requires Inv(s)
    ensures Inv(RetryDeletionStep(s, now, a).state)
  {
    hide Inv, SetDeadState;
    if a in s.assets && AwaitsDeletion(s.assets[a].status) {
      AwaitingIsQueued(s, a);
      StatusWriteKeeps(s, a, DeleteRequested);
      var t := s.(assets := s.assets[a := s.assets[a].(status := DeleteRequested)]);
      DeletionWriteKeeps(t, a, if a in s.deletions then s.deletions[a].(job := Requeued(s.deletions[a].job)) else DeletionJob(NEW_JOB, false));
      var u := t.(deletions := s.deletions[a := if a in s.deletions then s.deletions[a].(job := Requeued(s.deletions[a].job)) else DeletionJob(NEW_JOB, false)]);
      if s.assets[a].objectId.Some? { DeadObjectKeeps(u, s.assets[a].objectId.value, DeletePending, 0); }
    }
  }

  lemma {:induction false} CompleteAssetDeleteKeeps(s: State, a: AssetId)
    requires Inv(s) && (a in s.assets ==> Revoked(s.assets[a].status))
    ensures Inv(CompleteAssetDelete(s, a))
  {
    hide Inv, FinishDelete;
    if a in s.assets {
      StatusWriteKeeps(s, a, AssetStatus.Deleted);
      var t := s.(assets := s.assets[a := s.assets[a].(status := AssetStatus.Deleted)]);
      if s.assets[a].objectId.Some? { FinishDeleteKeeps(t, s.assets[a].objectId.value); }
    }
  }

  lemma {:induction false} HardDeleteRefs(s: State, a: AssetId)
    requires Counted(s.assets, s.objects) && Linked(s.assets, s.objects) && a in s.assets && Revoked(s.assets[a].status)
    ensures Counted(s.assets - {a}, HardDelete(s, a).objects) && Linked(s.assets - {a}, HardDelete(s, a).objects)
    ensures HardDelete(s, a).objects.Keys <= s.objects.Keys
  {
    forall o ensures LiveRefs(s.assets - {a}, o) == LiveRefs(s.assets, o) { LiveRefsDrop(s.assets, a, o); }
    if s.assets[a].objectId.Some? {
      var o := s.assets[a].objectId.value;
      forall b | b in s.assets - {a} && (s.assets - {a})[b].objectId == Some(o) ensures o in HardDelete(s, a).objects {
        assert b in OtherRefs(s.assets, o, a);
      }
    }
  }

  lemma {:induction false} HardDeleteKeeps(s: State, a: AssetId)
    requires Inv(s) && (a in s.assets ==> Revoked(s.assets[a].status))
    ensures Inv(HardDelete(s, a))
  {
    if a in s.assets {
      assert DeletionsOwned(s.deletions - {a}, s.assets - {a}, s.nextToken);
      assert (s.assets - {a}).Keys == s.assets.Keys - {a};
      hide Counted, Linked, Indexed, JobsOwned, DeletionsOwned, RunsInOrder, OtherRefs;
      HardDeleteRefs(s, a);
      IndexDrop(s.assets, s.ordinals, s.nextAsset, a);
      JobsDrop(s.jobs, s.assets.Keys, s.objects.Keys, s.nextToken, a, HardDelete(s, a).objects.Keys);
    }
  }

  lemma {:induction false} AssetDeleteLeavesJobs(s: State, a: AssetId, row: DeletionJob)
    ensures var t := CompleteAssetDelete(s, a);
      && t.deletions == s.deletions && t.nextToken == s.nextToken && t.assets.Keys == s.assets.Keys
      && (a in t.assets ==> t.assets[a].status == AssetStatus.Deleted)
      && CompleteAssetDelete(s.(deletions := s.deletions[a := row]), a) == t.(deletions := t.deletions[a := row])
  {
    hide FinishDelete;
  }

  lemma {:induction false} CompleteDeletionKeeps(s: State, now: Time, a: AssetId, token: Token)
    requires Inv(s)
    ensures Inv(CompleteDeletionStep(s, now, a, token).state)
  {
    if a in s.deletions && Leased(s.deletions[a].job, token, now) {
      hide Inv, HardDelete, CompleteAssetDelete;
      var row := s.deletions[a].(job := Finished(s.deletions[a].job));
      DeletionsHaveAssets(s, a);
      CompleteAssetDeleteKeeps(s, a);
      AssetDeleteLeavesJobs(s, a, row);
      DeletionWriteKeeps(CompleteAssetDelete(s, a), a, row);
      HardDeleteKeeps(CompleteAssetDelete(s.(deletions := s.deletions[a := row]), a), a);
    }
  }

  lemma {:induction false} RequestPurgeKeeps(s: State, a: AssetId)
    requires Inv(s)
    ensures Inv(RequestPurgeStep(s, a).state)
  {
    if a in s.assets {
      if s.assets[a].status == AssetStatus.Deleted {
        hide Inv, HardDelete;
        HardDeleteKeeps(s, a);
      } else {
        hide Inv, HardDelete, DropReference;
        RequestDeleteKeeps(s, a);
        var t := RequestDeleteStep(s, a).state;
        DeletionsHaveAssets(t, a);
        DeletionWriteKeeps(t, a, t.deletions[a].(purge := true));
      }
    }
  }

  lemma {:induction false} TaskStepKeeps(s: State, now: Time, op: TaskRuns.Op)
    requires Inv(s)
    ensures Inv(TaskStep(s, now, op).state)
  {
    var tasks := TaskRuns.State(s.runs, s.nextToken);
    var t := TaskRuns.Apply(tasks, now, op).state;
    hide Counted, Linked, Indexed, JobsOwned, DeletionsOwned, TaskRuns.Apply, TaskRuns.Inv;
    TaskRuns.ApplyKeepsInv(tasks, now, op);
    TaskRuns.ApplyMovesForward(tasks, now, op);
    JobsWiden(s.jobs, s.assets.Keys, s.objects.Keys, s.nextToken, s.assets.Keys, t.nextToken);
    DeletionsWiden(s.deletions, s.assets, s.nextToken, t.nextToken);
  }

  lemma {:induction false} EnsureKeeps(s: State, taskRun: RunId, kind: Kind, urls: seq<Option<Url>>)
    requires Inv(s)
    ensures Inv(EnsureResultMediaStep(s, taskRun, kind, urls).state)
    ensures Inv(EnsureContentMediaStep(s, taskRun, kind).state)
  {
    hide Inv, EnsureSlots, EnsureSlot, HasOtherKind;
    EnsureSlotsKeeps(s, taskRun, kind, urls, |urls|);
    EnsureSlotKeeps(s, taskRun, kind, 0);
  }

  lemma {:induction false} SharedMarkKeeps(s: State, a: AssetId, o: ObjectId)
    requires Inv(s) && (o in s.objects ==> s.objects[o].state == Ready)
    ensures Inv(MarkAvailableStep(s, a, o).state)
  {
    assert o in s.objects ==> s.objects[o].refCount > 0;
    hide Inv, MarkAvailableStep;
    MarkAvailableKeeps(s, a, o);
  }

  lemma {:induction false} PrepareKeeps(s: State, o: ObjectId)
    requires Inv(s)
    ensures Inv(PrepareDeletionStep(s, o).state)
  {
    hide Inv;
    DeadObjectKeeps(s, o, Deleting, 0);
  }

  lemma {:induction false} ProjectKeeps(s: State, now: Time, run: RunId, kind: Kind, failed: bool)
    requires Inv(s)
    ensures Inv(ProjectMediaStep(s, now, run, kind, failed).state)
  {
    hide Inv, CompleteTaskStep, TaskStep, BatchReady;
    CompleteTaskKeeps(s, now, run, kind);
    TaskStepKeeps(s, now, TaskRuns.UpdateStatus(run, TaskRuns.Materializing, TaskRuns.PendingOutcome));
  }

  /** Every transaction keeps every count, link, index and lease in order. */
  lemma {:induction false} ApplyKeepsInv(s: State, now: Time, op: Op)
    requires Inv(s) && Allowed(s, op)
    ensures Inv(Apply(s, now, op).state)
  {
    hide Inv, CreateForMaterializationStep, EnsureResultMediaStep, EnsureContentMediaStep, ClaimJobStep, ClaimAssetStep;
    hide RenewJobStep, CommitStep, CompleteJobStep, FailJobStep, FailWithAssetStep, RetryMaterializationStep, MarkAvailableStep;
    hide RequestDeleteStep, ClaimDeletionStep, RenewDeletionStep, CompleteDeletionStep, FailDeletionStep, RetryDeletionStep;
    hide RequestPurgeStep, PrepareDeletionStep, CompleteTaskStep, ProjectMediaStep, TaskStep;
    match op
    case CreateForMaterialization(r, kind, ordinal, lease) => CreateKeeps(s, now, r, kind, ordinal, lease);
    case EnsureResultMedia(r, kind, urls) => EnsureKeeps(s, r, kind, urls);
    case EnsureContentMedia(r, kind) => EnsureKeeps(s, r, kind, []);
    case ClaimJob(a, lease) => ClaimJobKeeps(s, now, a, lease);
    case ClaimAsset(a, lease) => ClaimAssetKeeps(s, now, a, lease);
    case RenewJob(a, token, lease) => JobStepKeeps(s, now, a, token, lease, None);
    case CompleteJob(a, token) => JobStepKeeps(s, now, a, token, 0, None);
    case FailJob(a, token, next) => JobStepKeeps(s, now, a, token, 0, next);
    case FailWithAsset(a, token, next) => FailWithAssetKeeps(s, now, a, token, next);
    case RetryMaterialization(a) => RetryMaterializationKeeps(s, now, a);
    case MarkAvailable(a, o) => SharedMarkKeeps(s, a, o);
    case Commit(a, token, _) => CommitKeeps(s, now, a, token);
    case RequestDelete(a) => RequestDeleteKeeps(s, a);
    case ClaimDeletion(a, lease) => ClaimDeletionKeeps(s, now, a, lease);
    case RenewDeletion(a, token, lease) => RenewDeletionKeeps(s, now, a, token, lease);
    case CompleteDeletion(a, token) => CompleteDeletionKeeps(s, now, a, token);
    case FailDeletion(a, token, next) => FailDeletionKeeps(s, now, a, token, next);
    case RetryDeletion(a) => RetryDeletionKeeps(s, now, a);
    case RequestPurge(a) => RequestPurgeKeeps(s, a);
    case PrepareDeletion(o) => PrepareKeeps(s, o);
    case CompleteTask(run, kind) => CompleteTaskKeeps(s, now, run, kind);
    case ProjectMedia(run, kind, failed) => ProjectKeeps(s, now, run, kind, failed);
    case Task(inner) => TaskStepKeeps(s, now, inner);
  }

  /** The bare mark is safe exactly on objects that already have a live reference: on any other object it
      leaves a live asset uncounted. */
  lemma {:induction false} MarkAvailableIsSafeExactlyWhenShared(s: State, a: AssetId, o: ObjectId)
    requires Inv(s) && MarkAvailableStep(s, a, o).err.None?
    ensures Inv(MarkAvailableStep(s, a, o).state) <==> s.objects[o].refCount > 0
  {
    if s.objects[o].refCount > 0 {
      hide Inv;
      MarkAvailableKeeps(s, a, o);
    } else {
      hide MarkAvailableStep, LiveRefs;
      FirstReferenceIsUncounted(s, a, o);
    }
  }

  lemma {:induction false} FirstReferenceIsUncounted(s: State, a: AssetId, o: ObjectId)
    requires Counted(s.assets, s.objects) && MarkAvailableStep(s, a, o).err.None? && s.objects[o].refCount <= 0
    ensures var t := MarkAvailableStep(s, a, o).state; !Counted(t.assets, t.objects)
  {
    var t := MarkAvailableStep(s, a, o).state;
    assert LiveRefs(s.assets, o) == {};
    assert a !in LiveRefs(s.assets, o);
    assert a in LiveRefs(t.assets, o);
    hide LiveRefs;
  }
}
