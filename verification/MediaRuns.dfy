/** Safety over whole runs of the media pipeline: fencing, one commit per asset, revocation that sticks,
    objects that stay dead once cleared for deletion, and promotion of whole batches only. */
module MediaRuns {
  import opened Wrappers
  import TaskRuns
  import opened Media
  import opened MediaInvariant

  datatype Event = Event(now: Time, op: Op)

  /** states[k + 1] follows states[k] by events[k]; the clock readings come in any order. */
  ghost predicate Run(states: seq<State>, events: seq<Event>) {
    && |states| == |events| + 1
    && Inv(states[0])
    && (forall k :: 0 <= k < |events| ==>
          Allowed(states[k], events[k].op) && states[k + 1] == Apply(states[k], events[k].now, events[k].op).state)
  }

  /** In every state of every run each object's count is the number of live assets pointing at it, the object
      is Ready exactly when that number is positive, and no asset names a missing object. */
  lemma {:induction false} CountsAreExact(states: seq<State>, events: seq<Event>, j: nat)
    requires Run(states, events) && j < |states|
    ensures Inv(states[j])
    ensures forall o :: o in states[j].objects ==>
              && states[j].objects[o].refCount == |LiveRefs(states[j].assets, o)|
              && (states[j].objects[o].state == Ready <==> LiveRefs(states[j].assets, o) != {})
    ensures forall a :: a in states[j].assets && states[j].assets[a].objectId.Some? ==>
              states[j].assets[a].objectId.value in states[j].objects
  {
    if j == 0 {
    } else {
      hide Inv, Apply;
      CountsAreExact(states, events, j - 1);
      ApplyKeepsInv(states[j - 1], events[j - 1].now, events[j - 1].op);
    }
    assert Inv(states[j]);
    InvMeansCounted(states[j]);
  }

  lemma {:induction false} InvMeansCounted(s: State)
    requires Inv(s)
    ensures forall o :: o in s.objects ==>
              && s.objects[o].refCount == |LiveRefs(s.assets, o)|
              && (s.objects[o].state == Ready <==> LiveRefs(s.assets, o) != {})
    ensures forall a :: a in s.assets && s.assets[a].objectId.Some? ==> s.assets[a].objectId.value in s.objects
  {
  }

  // ---------------------------------------------------------------- what one transaction can do to a row

  /** Result slots only add fresh pending assets and fresh pending jobs. */
  ghost predicate Grown(s: State, t: State) {
    && t == s.(assets := t.assets, ordinals := t.ordinals, jobs := t.jobs, nextAsset := t.nextAsset)
    && s.nextAsset <= t.nextAsset
    && (forall a :: a in s.assets ==> a in t.assets && t.assets[a] == s.assets[a])
    && (forall a :: a in t.assets && a !in s.assets ==> s.nextAsset <= a && t.assets[a].objectId.None?)
    && (forall a :: a in s.jobs ==> a in t.jobs && t.jobs[a] == s.jobs[a])
    && (forall a :: a in t.jobs && a !in s.jobs ==> t.jobs[a] == NEW_JOB)
  }

  lemma {:induction false} EnsureSlotGrows(s: State, taskRun: RunId, kind: Kind, ordinal: nat)
    requires Inv(s)
    ensures Grown(s, EnsureSlot(s, taskRun, kind, ordinal))
  {
    hide Inv;
    NextAssetIsFresh(s);
  }

  lemma {:induction false} NextAssetIsFresh(s: State)
    requires Inv(s)
    ensures s.nextAsset !in s.assets && s.nextAsset !in s.jobs
  {
  }

  lemma {:induction false} EnsureSlotsGrows(s: State, taskRun: RunId, kind: Kind, urls: seq<Option<Url>>, n: nat)
    requires Inv(s) && n <= |urls|
    ensures Grown(s, EnsureSlots(s, taskRun, kind, urls, n))
  {
    hide Inv, EnsureSlot;
    if n == 0 {
    } else {
      EnsureSlotsGrows(s, taskRun, kind, urls, n - 1);
      EnsureSlotsKeeps(s, taskRun, kind, urls, n - 1);
      EnsureSlotGrows(EnsureSlots(s, taskRun, kind, urls, n - 1), taskRun, kind, n - 1);
    }
  }

  /** Assets are never resurrected: ids are used once and a revoked asset stays revoked. A row starts to
      point at an object only by an availability mark or a commit that names it. */
  ghost predicate AssetsEvolve(s: State, op: Op, t: State) {
    && s.nextAsset <= t.nextAsset
    && (forall a :: a in t.assets ==> a in s.assets || (s.nextAsset <= a && t.assets[a].objectId.None?))
    && (forall a :: a in s.assets && a in t.assets ==>
          && (Revoked(s.assets[a].status) ==> Revoked(t.assets[a].status))
          && (Retryable(t.assets[a].status) ==> Retryable(s.assets[a].status) || (a in s.jobs && s.jobs[a].status == JobRunning))
          && (|| t.assets[a].objectId == s.assets[a].objectId
              || (op.MarkAvailable? && t.assets[a].objectId == Some(op.objectId) && op.objectId in s.objects)
              || (op.Commit? && t.assets[a].objectId == Some(op.objectId)
                  && op.asset in s.jobs && s.jobs[op.asset].owner == Some(op.token))))
  }

  /** A materialization job keeps its lease, loses it, or passes to a token never used before; only the
      holder's own renewal, under a live lease, moves the expiry. A finished job is reopened only for an
      asset that can still be materialized, and outlives everything but its asset. */
  ghost predicate JobsEvolve(s: State, now: Time, op: Op, t: State) {
    && s.nextToken <= t.nextToken
    && (forall a :: a in t.jobs && t.jobs[a].owner.Some? ==>
          || (t.jobs[a].owner == Some(s.nextToken) && s.nextToken < t.nextToken)
          || (&& a in s.jobs
              && t.jobs[a].owner == s.jobs[a].owner
              && (t.jobs[a].expires == s.jobs[a].expires || (op.RenewJob? && op.asset == a && Leased(s.jobs[a], op.token, now)))))
    && (forall a :: a in s.jobs && a in t.assets ==>
          && a in t.jobs
          && (s.jobs[a].status == JobSucceeded && t.jobs[a].status != JobSucceeded ==> a in s.assets && Retryable(s.assets[a].status)))
  }

  /** The same for deletion jobs. */
  ghost predicate DeletionsEvolve(s: State, now: Time, op: Op, t: State) {
    && s.nextToken <= t.nextToken
    && (forall a :: a in t.deletions && t.deletions[a].job.owner.Some? ==>
          || (t.deletions[a].job.owner == Some(s.nextToken) && s.nextToken < t.nextToken)
          || (&& a in s.deletions
              && t.deletions[a].job.owner == s.deletions[a].job.owner
              && (t.deletions[a].job.expires == s.deletions[a].job.expires
                  || (op.RenewDeletion? && op.asset == a && Leased(s.deletions[a].job, op.token, now)))))
  }

  predicate IsTaskWork(op: Op) { op.CompleteTask? || op.ProjectMedia? || op.Task? }

  lemma {:induction false} CompleteTaskTouchesRunsOnly(s: State, now: Time, run: RunId, kind: Kind)
    ensures var t := CompleteTaskStep(s, now, run, kind).state; t == s.(runs := t.runs)
    ensures run != 0 && run in s.runs ==> CompleteTaskStep(s, now, run, kind).err.None?
  {
    hide BatchReady, TaskRuns.Promoted, TaskRuns.StatusRank;
  }

  lemma {:induction false} TaskStepTouchesRunsOnly(s: State, now: Time, op: TaskRuns.Op)
    ensures var t := TaskStep(s, now, op).state;
            t == s.(runs := t.runs, nextToken := t.nextToken) && s.nextToken <= t.nextToken
  {
    TaskRuns.ApplyMovesForward(TaskRuns.State(s.runs, s.nextToken), now, op);
    hide TaskRuns.Apply;
  }

  lemma {:induction false} TaskWorkTouchesRunsOnly(s: State, now: Time, op: Op)
    requires IsTaskWork(op)
    ensures var t := Apply(s, now, op).state;
            t == s.(runs := t.runs, nextToken := t.nextToken) && s.nextToken <= t.nextToken
  {
    hide BatchReady, TaskStep, CompleteTaskStep;
    match op
    case CompleteTask(run, kind) => CompleteTaskTouchesRunsOnly(s, now, run, kind);
    case ProjectMedia(run, kind, _) =>
      CompleteTaskTouchesRunsOnly(s, now, run, kind);
      TaskStepTouchesRunsOnly(s, now, TaskRuns.UpdateStatus(run, TaskRuns.Materializing, TaskRuns.PendingOutcome));
    case Task(inner) => TaskStepTouchesRunsOnly(s, now, inner);
  }

  predicate IsEnsure(op: Op) { op.EnsureResultMedia? || op.EnsureContentMedia? }

  lemma {:induction false} EnsureGrows(s: State, now: Time, op: Op)
    requires Inv(s) && IsEnsure(op)
    ensures Grown(s, Apply(s, now, op).state)
  {
    hide Inv, EnsureSlot, EnsureSlots, HasOtherKind;
    match op
    case EnsureResultMedia(r, kind, urls) => EnsureSlotsGrows(s, r, kind, urls, |urls|);
    case EnsureContentMedia(r, kind) => EnsureSlotGrows(s, r, kind, 0);
  }

  /** A successful commit: the job is finished and exactly its own asset takes the object. */
  lemma {:induction false} CommitTouches(s: State, now: Time, a: AssetId, token: Token, o: ObjectId)
    ensures var r := CommitStep(s, now, a, token, o);
            if r.err.Some? then r.state == s
            else
              && a in s.jobs && Leased(s.jobs[a], token, now) && a in s.assets && !Revoked(s.assets[a].status) && o !in s.objects
              && r.state.jobs == s.jobs[a := Finished(s.jobs[a])]
              && r.state.assets == s.assets[a := s.assets[a].(objectId := Some(o), status := Available)]
              && r.state.deletions == s.deletions && r.state.nextAsset == s.nextAsset && r.state.nextToken == s.nextToken
  {
    hide JoinObject, LeaveObject, LiveRefs, CompleteTaskStep;
    if a in s.jobs && Leased(s.jobs[a], token, now) && o !in s.objects {
      var stored := s.(jobs := s.jobs[a := Finished(s.jobs[a])], objects := s.objects[o := StoredObject(Ready, 1, 0)]);
      var marked := MarkAvailableStep(stored, a, o);
      if marked.err.None? {
        CompleteTaskTouchesRunsOnly(marked.state, now, s.assets[a].taskRun, s.assets[a].kind);
      }
    }
  }

  ghost predicate Evolves(s: State, now: Time, op: Op, t: State) {
    && AssetsEvolve(s, op, t)
    && JobsEvolve(s, now, op, t)
    && DeletionsEvolve(s, now, op, t)
    && (!op.Commit? && !IsTaskWork(op) ==> t.runs == s.runs)
  }

  lemma {:induction false} TaskWorkEvolves(s: State, now: Time, op: Op)
    requires Inv(s) && IsTaskWork(op)
    ensures Evolves(s, now, op, Apply(s, now, op).state)
  {
    hide Inv, Apply;
    TaskWorkTouchesRunsOnly(s, now, op);
  }

  lemma {:induction false} GrownEvolves(s: State, now: Time, op: Op, t: State)
    requires Grown(s, t)
    ensures Evolves(s, now, op, t)
  {
  }

  lemma {:induction false} EnsureEvolves(s: State, now: Time, op: Op)
    requires Inv(s) && IsEnsure(op)
    ensures Evolves(s, now, op, Apply(s, now, op).state)
  {
    hide Inv, Apply, Grown, Evolves;
    EnsureGrows(s, now, op);
    GrownEvolves(s, now, op, Apply(s, now, op).state);
  }

  lemma {:induction false} CommitEvolves(s: State, now: Time, a: AssetId, token: Token, o: ObjectId)
    ensures Evolves(s, now, Commit(a, token, o), CommitStep(s, now, a, token, o).state)
  {
    CommitTouches(s, now, a, token, o);
    hide CommitStep;
  }

  lemma {:induction false} MarkEvolves(s: State, now: Time, a: AssetId, o: ObjectId)
    ensures Evolves(s, now, MarkAvailable(a, o), MarkAvailableStep(s, a, o).state)
  {
    hide AssetsEvolve, JobsEvolve, DeletionsEvolve;
    var op, t := MarkAvailable(a, o), MarkAvailableStep(s, a, o).state;
    MarkTouches(s, a, o);
    assert AssetsEvolve(s, op, t) by { MarkEvolvesAssets(s, a, o); }
    SameJobsEvolve(s, now, op, t);
    hide MarkAvailableStep;
    SameDeletionsEvolve(s, now, op, t);
  }

  lemma {:induction false} MarkTouches(s: State, a: AssetId, o: ObjectId)
    ensures var t := MarkAvailableStep(s, a, o).state;
      t == s.(assets := t.assets, objects := t.objects) && t.assets.Keys == s.assets.Keys
  {
    hide JoinObject, LeaveObject, LiveRefs;
  }

  lemma {:induction false} MarkEvolvesAssets(s: State, a: AssetId, o: ObjectId)
    ensures AssetsEvolve(s, MarkAvailable(a, o), MarkAvailableStep(s, a, o).state)
  {
    hide JoinObject, LeaveObject, LiveRefs;
  }

  lemma {:induction false} SameJobsEvolve(s: State, now: Time, op: Op, t: State)
    requires t.jobs == s.jobs && t.nextToken == s.nextToken && t.assets.Keys <= s.assets.Keys
    requires forall a :: a in s.jobs && a in t.assets ==> a in s.assets
    ensures JobsEvolve(s, now, op, t)
  {
  }

  lemma {:induction false} SameDeletionsEvolve(s: State, now: Time, op: Op, t: State)
    requires t.deletions == s.deletions && t.nextToken == s.nextToken
    ensures DeletionsEvolve(s, now, op, t)
  {
  }

  /** The transaction writes or drops at most the rows of one asset, within what `Evolves` allows. */
  ghost predicate OneRow(s: State, now: Time, op: Op, a: AssetId, t: State) {
    && t.nextAsset == s.nextAsset && s.nextToken <= t.nextToken && t.runs == s.runs
    && (|| t.assets == s.assets
        || t.assets == s.assets - {a}
        || (&& a in s.assets && a in t.assets && t.assets == s.assets[a := t.assets[a]]
            && t.assets[a].objectId == s.assets[a].objectId
            && (Revoked(s.assets[a].status) ==> Revoked(t.assets[a].status))
            && (Retryable(t.assets[a].status) ==> Retryable(s.assets[a].status) || (a in s.jobs && s.jobs[a].status == JobRunning))))
    && (|| t.jobs == s.jobs
        || (t.jobs == s.jobs - {a} && a !in t.assets)
        || (&& a in t.jobs && t.jobs == s.jobs[a := t.jobs[a]]
            && (a in s.jobs && s.jobs[a].status == JobSucceeded && t.jobs[a].status != JobSucceeded ==>
                  a in s.assets && Retryable(s.assets[a].status))
            && (|| t.jobs[a].owner.None?
                || (t.jobs[a].owner == Some(s.nextToken) && s.nextToken < t.nextToken)
                || (&& a in s.jobs && t.jobs[a].owner == s.jobs[a].owner
                    && op.RenewJob? && op.asset == a && Leased(s.jobs[a], op.token, now)))))
    && (|| t.deletions == s.deletions
        || t.deletions == s.deletions - {a}
        || (&& a in t.deletions && t.deletions == s.deletions[a := t.deletions[a]]
            && (|| t.deletions[a].job.owner.None?
                || (t.deletions[a].job.owner == Some(s.nextToken) && s.nextToken < t.nextToken)
                || (&& a in s.deletions && t.deletions[a].job.owner == s.deletions[a].job.owner
                    && (|| t.deletions[a].job.expires == s.deletions[a].job.expires
                        || (op.RenewDeletion? && op.asset == a && Leased(s.deletions[a].job, op.token, now)))))))
  }

  lemma {:induction false} OneRowEvolves(s: State, now: Time, op: Op, a: AssetId, t: State)
    requires OneRow(s, now, op, a, t)
    ensures Evolves(s, now, op, t)
  {
  }

  /** A created asset and its first leased job, next to the rows that were there. */
  lemma {:induction false} FirstLeaseEvolves(s: State, now: Time, op: Op, t: State, asset: Asset, job: Job)
    requires s.nextAsset !in s.assets && asset.objectId.None? && job.owner == Some(s.nextToken)
    requires op.CreateForMaterialization?
    requires t.assets == s.assets[s.nextAsset := asset] && t.jobs == s.jobs[s.nextAsset := job] && t.deletions == s.deletions
    requires t.runs == s.runs && t.nextAsset == s.nextAsset + 1 && t.nextToken == s.nextToken + 1
    requires s.nextAsset !in s.jobs
    ensures Evolves(s, now, op, t)
  {
  }

  lemma {:induction false} CreateEvolves(s: State, now: Time, r: RunId, kind: Kind, ordinal: nat, lease: int)
    requires Inv(s)
    ensures Evolves(s, now, CreateForMaterialization(r, kind, ordinal, lease), CreateForMaterializationStep(s, now, r, kind, ordinal, lease).state)
  {
    assert s.nextAsset !in s.assets && s.nextAsset !in s.jobs;
    hide Inv, Evolves, OneRow;
    var op := CreateForMaterialization(r, kind, ordinal, lease);
    var t := CreateForMaterializationStep(s, now, r, kind, ordinal, lease);
    if t.err.None? {
      FirstLeaseEvolves(s, now, op, t.state, t.state.assets[s.nextAsset], t.state.jobs[s.nextAsset]);
    } else {
      UnchangedRow(s, now, op, 0);
      OneRowEvolves(s, now, op, 0, s);
    }
  }

  lemma {:induction false} ClaimRow(s: State, now: Time, a: AssetId, lease: int)
    ensures OneRow(s, now, ClaimJob(a, lease), a, ClaimJobStep(s, now, a, lease).state)
  {
  }

  lemma {:induction false} ClaimAssetRow(s: State, now: Time, a: AssetId, lease: int)
    ensures OneRow(s, now, ClaimAsset(a, lease), a, ClaimAssetStep(s, now, a, lease).state)
  {
  }

  lemma {:induction false} RenewRow(s: State, now: Time, a: AssetId, token: Token, lease: int)
    ensures OneRow(s, now, RenewJob(a, token, lease), a, RenewJobStep(s, now, a, token, lease).state)
  {
  }

  lemma {:induction false} CompleteRow(s: State, now: Time, a: AssetId, token: Token)
    ensures OneRow(s, now, CompleteJob(a, token), a, CompleteJobStep(s, now, a, token).state)
  {
  }

  lemma {:induction false} FailRow(s: State, now: Time, a: AssetId, token: Token, next: Option<Time>)
    ensures OneRow(s, now, FailJob(a, token, next), a, FailJobStep(s, now, a, token, next).state)
  {
  }

  lemma {:induction false} FailWithAssetRow(s: State, now: Time, a: AssetId, token: Token, next: Option<Time>)
    ensures OneRow(s, now, FailWithAsset(a, token, next), a, FailWithAssetStep(s, now, a, token, next).state)
  {
  }

  lemma {:induction false} RetryRow(s: State, now: Time, a: AssetId)
    ensures OneRow(s, now, RetryMaterialization(a), a, RetryMaterializationStep(s, now, a).state)
  {
  }

  lemma {:induction false} RequestDeleteRow(s: State, now: Time, a: AssetId)
    ensures OneRow(s, now, RequestDelete(a), a, RequestDeleteStep(s, a).state)
    ensures RequestDeleteStep(s, a).state.jobs == s.jobs
  {
    hide DropReference;
  }

  lemma {:induction false} ClaimDeletionRow(s: State, now: Time, a: AssetId, lease: int)
    ensures OneRow(s, now, ClaimDeletion(a, lease), a, ClaimDeletionStep(s, now, a, lease).state)
  {
  }

  lemma {:induction false} RenewDeletionRow(s: State, now: Time, a: AssetId, token: Token, lease: int)
    ensures OneRow(s, now, RenewDeletion(a, token, lease), a, RenewDeletionStep(s, now, a, token, lease).state)
  {
  }

  lemma {:induction false} FailDeletionRow(s: State, now: Time, a: AssetId, token: Token, next: Option<Time>)
    ensures OneRow(s, now, FailDeletion(a, token, next), a, FailDeletionStep(s, now, a, token, next).state)
  {
    hide SetDeadState;
  }

  lemma {:induction false} RetryDeletionRow(s: State, now: Time, a: AssetId)
    ensures OneRow(s, now, RetryDeletion(a), a, RetryDeletionStep(s, now, a).state)
  {
    hide SetDeadState;
  }

  /** Finishing a deletion, with or without a purge, writes or drops the rows of that asset only. */
  lemma {:induction false} CompleteDeletionRow(s: State, now: Time, a: AssetId, token: Token)
    ensures OneRow(s, now, CompleteDeletion(a, token), a, CompleteDeletionStep(s, now, a, token).state)
  {
    hide FinishDelete, HardDelete, OneRow;
    if a in s.deletions && Leased(s.deletions[a].job, token, now) {
      var row := s.deletions[a].(job := Finished(s.deletions[a].job));
      var t := s.(deletions := s.deletions[a := row]);
      FinishedRow(s, now, CompleteDeletion(a, token), a, row);
      HardDeleteDrops(CompleteAssetDelete(t, a), a);
      DroppedRow(s, now, CompleteDeletion(a, token), a, CompleteAssetDelete(t, a), HardDelete(CompleteAssetDelete(t, a), a));
    } else {
      UnchangedRow(s, now, CompleteDeletion(a, token), a);
    }
  }

  lemma {:induction false} UnchangedRow(s: State, now: Time, op: Op, a: AssetId)
    ensures OneRow(s, now, op, a, s)
  {
  }

  lemma {:induction false} FinishedRow(s: State, now: Time, op: Op, a: AssetId, row: DeletionJob)
    requires row.job.owner.None?
    ensures OneRow(s, now, op, a, CompleteAssetDelete(s.(deletions := s.deletions[a := row]), a))
  {
    hide FinishDelete;
  }

  /** After a row of a has been finished, dropping all of a's rows is dropping them from the state before. */
  lemma {:induction false} DroppedRow(s: State, now: Time, op: Op, a: AssetId, u: State, v: State)
    requires u.nextAsset == s.nextAsset && u.nextToken == s.nextToken && u.jobs == s.jobs && u.runs == s.runs
    requires u.assets == s.assets || (a in s.assets && a in u.assets && u.assets == s.assets[a := u.assets[a]])
    requires OneRow(s, now, op, a, u)
    requires u.deletions == s.deletions || (a in u.deletions && u.deletions == s.deletions[a := u.deletions[a]])
    requires v == if a !in u.assets then u
                  else u.(assets := u.assets - {a}, jobs := u.jobs - {a}, deletions := u.deletions - {a},
                          ordinals := v.ordinals, objects := v.objects)
    ensures OneRow(s, now, op, a, v)
  {
    assert u.assets - {a} == s.assets - {a};
    assert u.deletions - {a} == s.deletions - {a};
  }

  lemma {:induction false} HardDeleteDrops(s: State, a: AssetId)
    ensures var t := HardDelete(s, a);
            if a !in s.assets then t == s
            else t == s.(assets := s.assets - {a}, jobs := s.jobs - {a}, deletions := s.deletions - {a},
                         ordinals := t.ordinals, objects := t.objects)
  {
    hide OtherRefs;
  }

  lemma {:induction false} PurgeMarkRow(s: State, now: Time, a: AssetId, t: State)
    requires OneRow(s, now, RequestDelete(a), a, t) && t.jobs == s.jobs
    requires t.deletions == s.deletions || t.deletions == s.deletions[a := DeletionJob(NEW_JOB, false)]
    ensures OneRow(s, now, RequestPurge(a), a,
                   t.(deletions := if a in t.deletions then t.deletions[a := t.deletions[a].(purge := true)] else t.deletions))
  {
  }

  lemma {:induction false} RequestPurgeRow(s: State, now: Time, a: AssetId)
    ensures OneRow(s, now, RequestPurge(a), a, RequestPurgeStep(s, a).state)
  {
    hide HardDelete, DropReference, OneRow;
    UnchangedRow(s, now, RequestPurge(a), a);
    if a in s.assets && s.assets[a].status == AssetStatus.Deleted {
      HardDeleteDrops(s, a);
      DroppedRow(s, now, RequestPurge(a), a, s, HardDelete(s, a));
    } else {
      RequestDeleteRow(s, now, a);
      PurgeMarkRow(s, now, a, RequestDeleteStep(s, a).state);
    }
  }

  lemma {:induction false} PrepareRow(s: State, now: Time, o: ObjectId)
    ensures OneRow(s, now, PrepareDeletion(o), 0, PrepareDeletionStep(s, o).state)
  {
  }

  predicate IsDeletionWork(op: Op) {
    op.RequestDelete? || op.ClaimDeletion? || op.RenewDeletion? || op.CompleteDeletion? || op.FailDeletion?
    || op.RetryDeletion? || op.RequestPurge? || op.PrepareDeletion?
  }

  lemma {:induction false} DeletionWorkEvolves(s: State, now: Time, op: Op)
    requires Inv(s) && IsDeletionWork(op)
    ensures Evolves(s, now, op, Apply(s, now, op).state)
  {
    hide Inv, Evolves, OneRow, CreateForMaterializationStep, ClaimJobStep, ClaimAssetStep;
    hide RenewJobStep, CommitStep, CompleteJobStep, FailJobStep, FailWithAssetStep, RetryMaterializationStep, MarkAvailableStep;
    hide RequestDeleteStep, ClaimDeletionStep, RenewDeletionStep, CompleteDeletionStep, FailDeletionStep, RetryDeletionStep;
    hide RequestPurgeStep, PrepareDeletionStep, EnsureResultMediaStep, EnsureContentMediaStep, CompleteTaskStep, ProjectMediaStep, TaskStep;
    var t := Apply(s, now, op).state;
    match op
    case RequestDelete(a) => RequestDeleteRow(s, now, a); OneRowEvolves(s, now, op, a, t);
    case ClaimDeletion(a, lease) => ClaimDeletionRow(s, now, a, lease); OneRowEvolves(s, now, op, a, t);
    case RenewDeletion(a, token, lease) => RenewDeletionRow(s, now, a, token, lease); OneRowEvolves(s, now, op, a, t);
    case CompleteDeletion(a, token) => CompleteDeletionRow(s, now, a, token); OneRowEvolves(s, now, op, a, t);
    case FailDeletion(a, token, next) => FailDeletionRow(s, now, a, token, next); OneRowEvolves(s, now, op, a, t);
    case RetryDeletion(a) => RetryDeletionRow(s, now, a); OneRowEvolves(s, now, op, a, t);
    case RequestPurge(a) => RequestPurgeRow(s, now, a); OneRowEvolves(s, now, op, a, t);
    case PrepareDeletion(o) => PrepareRow(s, now, o); OneRowEvolves(s, now, op, 0, t);
  }

  lemma {:induction false} ApplyEvolves(s: State, now: Time, op: Op)
    requires Inv(s)
    ensures Evolves(s, now, op, Apply(s, now, op).state)
  {
    if IsTaskWork(op) {
      TaskWorkEvolves(s, now, op);
    } else if IsEnsure(op) {
      EnsureEvolves(s, now, op);
    } else if IsDeletionWork(op) {
      DeletionWorkEvolves(s, now, op);
    } else {
      hide Inv, Evolves, OneRow, CreateForMaterializationStep, ClaimJobStep, ClaimAssetStep;
      hide RenewJobStep, CommitStep, CompleteJobStep, FailJobStep, FailWithAssetStep, RetryMaterializationStep, MarkAvailableStep;
      hide RequestDeleteStep, ClaimDeletionStep, RenewDeletionStep, CompleteDeletionStep, FailDeletionStep, RetryDeletionStep;
      hide RequestPurgeStep, PrepareDeletionStep, EnsureResultMediaStep, EnsureContentMediaStep, CompleteTaskStep, ProjectMediaStep, TaskStep;
      var t := Apply(s, now, op).state;
      match op
      case CreateForMaterialization(r, kind, ordinal, lease) => CreateEvolves(s, now, r, kind, ordinal, lease);
      case Commit(a, token, o) => CommitEvolves(s, now, a, token, o);
      case MarkAvailable(a, o) => MarkEvolves(s, now, a, o);
      case ClaimJob(a, lease) => ClaimRow(s, now, a, lease); OneRowEvolves(s, now, op, a, t);
      case ClaimAsset(a, lease) => ClaimAssetRow(s, now, a, lease); OneRowEvolves(s, now, op, a, t);
      case RenewJob(a, token, lease) => RenewRow(s, now, a, token, lease); OneRowEvolves(s, now, op, a, t);
      case CompleteJob(a, token) => CompleteRow(s, now, a, token); OneRowEvolves(s, now, op, a, t);
      case FailJob(a, token, next) => FailRow(s, now, a, token, next); OneRowEvolves(s, now, op, a, t);
      case FailWithAsset(a, token, next) => FailWithAssetRow(s, now, a, token, next); OneRowEvolves(s, now, op, a, t);
      case RetryMaterialization(a) => RetryRow(s, now, a); OneRowEvolves(s, now, op, a, t);
      case _ =>
    }
  }

  // ---------------------------------------------------------------- fencing

  /** Token t was drawn for asset a's job and by time `now` is replaced, cleared or expired. */
  ghost predicate StaleJob(s: State, a: AssetId, t: Token, now: Time) {
    && t < s.nextToken
    && (a in s.jobs && s.jobs[a].owner == Some(t) ==> s.jobs[a].expires.Some? && s.jobs[a].expires.value <= now)
  }

  ghost predicate StaleDeletion(s: State, a: AssetId, t: Token, now: Time) {
    && t < s.nextToken
    && (a in s.deletions && s.deletions[a].job.owner == Some(t) ==>
          s.deletions[a].job.expires.Some? && s.deletions[a].job.expires.value <= now)
  }

  /** No clock reading from i to j is earlier than `now`. */
  ghost predicate NotBefore(events: seq<Event>, i: nat, j: nat, now: Time)
    requires j <= |events|
  {
    forall k :: i <= k < j ==> now <= events[k].now
  }

  /** A token that is stale at a time stays stale at that time, unless a later step reads an earlier clock. */
  lemma {:induction false} StaleStays(states: seq<State>, events: seq<Event>, i: nat, j: nat, a: AssetId, t: Token, now: Time)
    requires Run(states, events) && i <= j <= |events| && NotBefore(events, i, j, now)
    ensures StaleJob(states[i], a, t, now) ==> StaleJob(states[j], a, t, now)
    ensures StaleDeletion(states[i], a, t, now) ==> StaleDeletion(states[j], a, t, now)
    decreases j - i
  {
    if i == j {
    } else {
      CountsAreExact(states, events, i);
      hide Inv, Apply;
      ApplyEvolves(states[i], events[i].now, events[i].op);
      StaleStays(states, events, i + 1, j, a, t, now);
    }
  }

  /** Token t was drawn and is no longer the owner: stale at any time. */
  ghost predicate Replaced(s: State, a: AssetId, t: Token) {
    && t < s.nextToken
    && (a in s.jobs ==> s.jobs[a].owner != Some(t)) && (a in s.deletions ==> s.deletions[a].job.owner != Some(t))
  }

  function Earliest(events: seq<Event>): (now: Time)
    requires events != []
    ensures forall k :: 0 <= k < |events| ==> now <= events[k].now
  {
    if |events| == 1 then events[0].now
    else
      var now := Earliest(events[1..]);
      if events[0].now < now then events[0].now else now
  }

  /** The transactions a materialization worker runs under its token. */
  predicate PresentsJob(op: Op, a: AssetId, t: Token) {
    (op.RenewJob? || op.Commit? || op.CompleteJob? || op.FailJob? || op.FailWithAsset?) && op.asset == a && op.token == t
  }

  predicate PresentsDeletion(op: Op, a: AssetId, t: Token) {
    (op.RenewDeletion? || op.CompleteDeletion? || op.FailDeletion?) && op.asset == a && op.token == t
  }

  lemma {:induction false} StaleRefused(s: State, now: Time, op: Op, a: AssetId, t: Token)
    ensures StaleJob(s, a, t, now) && PresentsJob(op, a, t) ==> Apply(s, now, op) == Step(s, Some(LeaseMismatch))
    ensures StaleDeletion(s, a, t, now) && PresentsDeletion(op, a, t) ==> Apply(s, now, op) == Step(s, Some(LeaseMismatch))
  {
    hide MarkAvailableStep, CompleteTaskStep, CompleteAssetDelete, HardDelete, SetDeadState;
    if PresentsJob(op, a, t) || PresentsDeletion(op, a, t) {
      match op
      case _ =>
    }
  }

  /** A worker whose token was replaced or cleared changes no row, then or at any later point of the run, however it
      renews, commits, completes or fails and whatever the clocks say. The same holds for a token left to expire, as long
      as no step since reads an earlier clock than the one it had expired by. */
  lemma {:induction false} StaleWorkerChangesNothing(states: seq<State>, events: seq<Event>, i: nat, j: nat, a: AssetId, t: Token)
    requires Run(states, events) && i <= j < |events|
    requires Replaced(states[i], a, t) || NotBefore(events, i, j + 1, events[i].now)
    requires || (StaleJob(states[i], a, t, events[i].now) && PresentsJob(events[j].op, a, t))
             || (StaleDeletion(states[i], a, t, events[i].now) && PresentsDeletion(events[j].op, a, t))
    ensures Apply(states[j], events[j].now, events[j].op).err == Some(LeaseMismatch)
    ensures states[j + 1] == states[j]
  {
    hide Apply, Inv;
    var now := if NotBefore(events, i, j + 1, events[i].now) then events[i].now else Earliest(events);
    StaleStays(states, events, i, j, a, t, now);
    StaleRefused(states[j], events[j].now, events[j].op, a, t);
  }

  // ---------------------------------------------------------------- one commit per asset

  ghost predicate Settled(s: State, a: AssetId) {
    && a < s.nextAsset
    && (a in s.assets ==> !Retryable(s.assets[a].status) && a in s.jobs && s.jobs[a].status == JobSucceeded)
  }

  lemma {:induction false} SettledStays(states: seq<State>, events: seq<Event>, i: nat, j: nat, a: AssetId)
    requires Run(states, events) && i <= j < |states| && Settled(states[i], a)
    ensures Settled(states[j], a)
    decreases j - i
  {
    if i == j {
    } else {
      CountsAreExact(states, events, i);
      hide Inv, Apply;
      ApplyEvolves(states[i], events[i].now, events[i].op);
      SettledStays(states, events, i + 1, j, a);
    }
  }

  ghost predicate Commits(states: seq<State>, events: seq<Event>, i: nat, a: AssetId)
    requires |states| == |events| + 1 && i < |events|
  {
    events[i].op.Commit? && events[i].op.asset == a && Apply(states[i], events[i].now, events[i].op).err.None?
  }

  /** Over a whole run an asset commits at most one object. */
  lemma {:induction false} AtMostOneCommit(states: seq<State>, events: seq<Event>, i: nat, j: nat, a: AssetId)
    requires Run(states, events) && i < j < |events|
    requires Commits(states, events, i, a)
    ensures !Commits(states, events, j, a)
  {
    CountsAreExact(states, events, i);
    assert a in states[i].assets ==> a < states[i].nextAsset;
    hide Inv, CommitStep;
    CommitTouches(states[i], events[i].now, a, events[i].op.token, events[i].op.objectId);
    SettledStays(states, events, i + 1, j, a);
    if Commits(states, events, j, a) {
      CommitTouches(states[j], events[j].now, a, events[j].op.token, events[j].op.objectId);
    }
  }

  // ---------------------------------------------------------------- revocation

  ghost predicate Gone(s: State, a: AssetId) {
    a < s.nextAsset && (a in s.assets ==> Revoked(s.assets[a].status))
  }

  lemma {:induction false} GoneStays(states: seq<State>, events: seq<Event>, i: nat, j: nat, a: AssetId)
    requires Run(states, events) && i <= j < |states| && Gone(states[i], a)
    ensures Gone(states[j], a)
    decreases j - i
  {
    if i == j {
    } else {
      CountsAreExact(states, events, i);
      hide Inv, Apply;
      ApplyEvolves(states[i], events[i].now, events[i].op);
      GoneStays(states, events, i + 1, j, a);
    }
  }

  /** A revoked asset never becomes available again, not even after its row is purged. */
  lemma {:induction false} RevokedNeverReturns(states: seq<State>, events: seq<Event>, i: nat, j: nat, a: AssetId)
    requires Run(states, events) && i <= j < |states|
    requires a in states[i].assets && Revoked(states[i].assets[a].status)
    ensures a in states[j].assets ==> states[j].assets[a].status != Available
  {
    CountsAreExact(states, events, i);
    GoneStays(states, events, i, j, a);
  }

  // ---------------------------------------------------------------- objects cleared for deletion

  ghost predicate Dead(s: State, o: ObjectId) {
    && o < s.nextToken
    && (forall a :: a in s.assets ==> !PointsAt(s.assets[a], o))
    && (forall a :: a in s.jobs ==> s.jobs[a].owner != Some(o))
  }

  lemma {:induction false} DeadIsNotReady(s: State, o: ObjectId)
    requires Inv(s) && Dead(s, o) && o in s.objects
    ensures s.objects[o].state != Ready
  {
    assert LiveRefs(s.assets, o) == {};
  }

  lemma {:induction false} DeadStep(s: State, now: Time, op: Op, t: State, o: ObjectId)
    requires Inv(s) && Allowed(s, op) && Evolves(s, now, op, t) && Dead(s, o)
    ensures Dead(t, o)
  {
    if o in s.objects { DeadIsNotReady(s, o); }
    hide Inv, JobsEvolve, DeletionsEvolve, Leased;
    NoWorkerReturns(s, now, op, t, o);
    forall a | a in t.assets ensures !PointsAt(t.assets[a], o) {
      assert a in s.assets ==> !PointsAt(s.assets[a], o);
    }
  }

  lemma {:induction false} NoWorkerReturns(s: State, now: Time, op: Op, t: State, o: ObjectId)
    requires JobsEvolve(s, now, op, t) && Dead(s, o)
    ensures s.nextToken <= t.nextToken && forall a :: a in t.jobs ==> t.jobs[a].owner != Some(o)
  {
    hide Leased;
  }

  lemma {:induction false} DeadStays(states: seq<State>, events: seq<Event>, i: nat, j: nat, o: ObjectId)
    requires Run(states, events) && i <= j < |states| && Dead(states[i], o)
    ensures Dead(states[j], o)
    decreases j - i
  {
    if i == j {
    } else {
      CountsAreExact(states, events, i);
      hide Inv, Apply, Evolves;
      ApplyEvolves(states[i], events[i].now, events[i].op);
      DeadStep(states[i], events[i].now, events[i].op, states[i + 1], o);
      DeadStays(states, events, i + 1, j, o);
    }
  }

  lemma {:induction false} PreparedIsDead(s: State, o: ObjectId)
    requires Inv(s) && PrepareDeletionStep(s, o).err.None?
    ensures Dead(PrepareDeletionStep(s, o).state, o)
  {
    assert LiveRefs(s.assets, o) == {};
    forall a | a in s.assets ensures !PointsAt(s.assets[a], o) {
      assert a !in LiveRefs(s.assets, o);
    }
    forall a | a in s.jobs ensures s.jobs[a].owner != Some(o) {
      assert JobRow(s.jobs[a], s.objects.Keys, s.nextToken);
    }
  }

  /** Once a worker has been told it may delete an object's file, no live asset points at that object, then
      or in any later state. */
  lemma {:induction false} ClearedObjectStaysUnreferenced(states: seq<State>, events: seq<Event>, i: nat, j: nat, o: ObjectId)
    requires Run(states, events) && i < j < |states|
    requires events[i].op == PrepareDeletion(o) && Apply(states[i], events[i].now, events[i].op).err.None?
    ensures LiveRefs(states[j].assets, o) == {}
  {
    CountsAreExact(states, events, i);
    PreparedIsDead(states[i], o);
    hide Inv, Apply, PrepareDeletionStep;
    DeadStays(states, events, i + 1, j, o);
  }

  /** In every state of every run an asset whose deletion was requested or has failed has a deletion job that some worker
      can claim: at any time past its lease and its next attempt. */
  lemma {:induction false} RequestedDeletionsStayQueued(
    states: seq<State>, events: seq<Event>, j: nat, a: AssetId, now: Time, lease: int)
    requires Run(states, events) && j < |states| && a in states[j].assets && AwaitsDeletion(states[j].assets[a].status)
    ensures a in states[j].deletions
    ensures var job := states[j].deletions[a].job;
      (job.expires.Some? ==> job.expires.value <= now) && (job.nextAttempt.Some? ==> job.nextAttempt.value <= now)
      ==> ClaimDeletionStep(states[j], now, a, lease).err.None?
  {
    CountsAreExact(states, events, j);
    AwaitingIsQueued(states[j], a);
    hide Inv;
  }

  // ---------------------------------------------------------------- task completion

  function Tasks(s: State): TaskRuns.State { TaskRuns.State(s.runs, s.nextToken) }

  /** The media path changes a task row in two ways only: it promotes a run whose whole non-empty batch is
      available, or the accept path parks a run that is still waiting for its media. */
  ghost predicate RunMoves(s: State, now: Time, op: Op, t: State, r: RunId)
    requires r in s.runs
  {
    && r in t.runs
    && (|| t.runs[r] == s.runs[r]
        || (&& t.runs[r] == TaskRuns.Promoted(s.runs[r], now)
            && !TaskRuns.IsTerminal(s.runs[r].status)
            && exists kind :: BatchReady(t.assets, r, kind))
        || (&& op.ProjectMedia? && op.run == r
            && TaskRuns.StatusRank(s.runs[r].status) <= 3
            && t.runs[r] == TaskRuns.StatusWritten(s.runs[r], TaskRuns.Materializing, TaskRuns.PendingOutcome, now)))
  }

  lemma {:induction false} CompleteTaskMoves(s: State, now: Time, op: Op, run: RunId, kind: Kind, r: RunId)
    requires r in s.runs
    ensures RunMoves(s, now, op, CompleteTaskStep(s, now, run, kind).state, r)
  {
    hide BatchReady, TaskRuns.Promoted, TaskRuns.StatusRank;
  }

  /** No media transaction completes a task unless its whole batch is available. */
  lemma {:induction false} OnlyWholeBatchesPromote(s: State, now: Time, op: Op, r: RunId)
    requires Inv(s) && !op.Task? && r in s.runs
    ensures RunMoves(s, now, op, Apply(s, now, op).state, r)
  {
    if op.CompleteTask? {
      hide Inv, CompleteTaskStep, RunMoves;
      CompleteTaskMoves(s, now, op, op.run, op.kind, r);
    } else if op.ProjectMedia? {
      hide Inv, CompleteTaskStep;
      CompleteTaskMoves(s, now, op, op.run, op.kind, r);
      hide BatchReady;
    } else if op.Commit? {
      hide Inv;
      CommitMoves(s, now, op, r);
    } else {
      hide Inv, Apply, AssetsEvolve, JobsEvolve, DeletionsEvolve, RunMoves;
      ApplyEvolves(s, now, op);
      UnchangedMoves(s, now, op, Apply(s, now, op).state, r);
    }
  }

  lemma {:induction false} UnchangedMoves(s: State, now: Time, op: Op, t: State, r: RunId)
    requires r in s.runs && t.runs == s.runs
    ensures RunMoves(s, now, op, t, r)
  {
  }

  lemma {:induction false} CommitMoves(s: State, now: Time, op: Op, r: RunId)
    requires op.Commit? && r in s.runs
    ensures RunMoves(s, now, op, CommitStep(s, now, op.asset, op.token, op.objectId).state, r)
  {
    hide CompleteTaskStep, JoinObject, LeaveObject, LiveRefs, BatchReady, TaskRuns.Promoted, TaskRuns.StatusRank;
    var a, o := op.asset, op.objectId;
    if a in s.jobs && Leased(s.jobs[a], op.token, now) && o !in s.objects {
      var marked := MarkAvailableStep(s.(jobs := s.jobs[a := Finished(s.jobs[a])], objects := s.objects[o := StoredObject(Ready, 1, 0)]), a, o);
      if marked.err.None? {
        hide MarkAvailableStep;
        CompleteTaskMoves(marked.state, now, op, s.assets[a].taskRun, s.assets[a].kind, r);
        CompleteTaskTouchesRunsOnly(marked.state, now, s.assets[a].taskRun, s.assets[a].kind);
      }
    }
  }

  /** A commit that makes its batch whole leaves the task terminal in the same transaction. */
  lemma {:induction false} LastCommitCompletes(s: State, now: Time, a: AssetId, token: Token, o: ObjectId)
    requires CommitStep(s, now, a, token, o).err.None?
    requires a in s.assets && s.assets[a].taskRun != 0 && s.assets[a].taskRun in s.runs
    requires BatchReady(CommitStep(s, now, a, token, o).state.assets, s.assets[a].taskRun, s.assets[a].kind)
    ensures var r := s.assets[a].taskRun;
            r in CommitStep(s, now, a, token, o).state.runs && TaskRuns.IsTerminal(CommitStep(s, now, a, token, o).state.runs[r].status)
  {
    hide JoinObject, LeaveObject, LiveRefs, BatchReady;
  }

  /** The accept path's projection never parks a run whose batch a worker has already finished, and never
      reports completion for a batch that is not. */
  lemma {:induction false} ProjectionAgreesWithBatch(s: State, now: Time, run: RunId, kind: Kind)
    requires ProjectMediaStep(s, now, run, kind, false).err.None?
    ensures var t := ProjectMediaStep(s, now, run, kind, false).state;
            && run in t.runs
            && (BatchReady(s.assets, run, kind) ==> TaskRuns.IsTerminal(t.runs[run].status))
            && (!BatchReady(s.assets, run, kind) ==> t.runs[run].status == TaskRuns.Materializing)
  {
    hide BatchReady;
  }

  lemma {:induction false} TasksMoveForward(s: State, now: Time, op: Op)
    requires Inv(s)
    ensures TaskRuns.Forward(Tasks(s), Tasks(Apply(s, now, op).state))
  {
    var t := Apply(s, now, op).state;
    if op.Task? {
      hide Inv;
      TaskRuns.ApplyMovesForward(Tasks(s), now, op.op);
      hide TaskRuns.Apply, TaskRuns.Forward;
    } else {
      hide Inv, Apply, AssetsEvolve, JobsEvolve, DeletionsEvolve, RunMoves, TaskRuns.StatusRank, TaskRuns.IsTerminal;
      ApplyEvolves(s, now, op);
      TokensGrow(s, now, op);
      forall r | r in s.runs
        ensures r in t.runs
        ensures TaskRuns.StatusRank(s.runs[r].status) <= TaskRuns.StatusRank(t.runs[r].status)
        ensures TaskRuns.IsTerminal(s.runs[r].status) ==> t.runs[r].status == s.runs[r].status
      {
        OnlyWholeBatchesPromote(s, now, op, r);
        MovesAreForward(s, now, op, t, r);
      }
    }
  }

  lemma {:induction false} TokensGrow(s: State, now: Time, op: Op)
    requires Inv(s)
    ensures s.nextToken <= Apply(s, now, op).state.nextToken
  {
    hide Inv, Apply, AssetsEvolve, DeletionsEvolve;
    ApplyEvolves(s, now, op);
  }

  lemma {:induction false} MovesAreForward(s: State, now: Time, op: Op, t: State, r: RunId)
    requires r in s.runs && RunMoves(s, now, op, t, r)
    ensures r in t.runs
    ensures TaskRuns.StatusRank(s.runs[r].status) <= TaskRuns.StatusRank(t.runs[r].status)
    ensures TaskRuns.IsTerminal(s.runs[r].status) ==> t.runs[r].status == s.runs[r].status
  {
  }

  lemma {:induction false} ForwardChain(s: TaskRuns.State, t: TaskRuns.State, u: TaskRuns.State)
    requires TaskRuns.Forward(s, t) && TaskRuns.Forward(t, u)
    ensures TaskRuns.Forward(s, u)
  {
    hide TaskRuns.StatusRank;
  }

  lemma {:induction false} ForwardItself(s: TaskRuns.State)
    ensures TaskRuns.Forward(s, s)
  {
  }

  /** Across every interleaving of enqueue, commits, projections and task transactions, no status rank falls
      and a terminal status is final. */
  lemma {:induction false} StatusesMoveForward(states: seq<State>, events: seq<Event>, i: nat, j: nat)
    requires Run(states, events) && i <= j < |states|
    ensures TaskRuns.Forward(Tasks(states[i]), Tasks(states[j]))
    decreases j - i
  {
    hide Inv, Apply, TaskRuns.Forward, LiveRefs;
    if i < j {
      CountsAreExact(states, events, j - 1);
      StatusesMoveForward(states, events, i, j - 1);
      TasksMoveForward(states[j - 1], events[j - 1].now, events[j - 1].op);
      ForwardChain(Tasks(states[i]), Tasks(states[j - 1]), Tasks(states[j]));
    } else {
      ForwardItself(Tasks(states[i]));
    }
  }

  /** After the commit that makes a batch whole, the task is terminal with one and the same status for the
      rest of the run, whatever the request's projection does later. */
  lemma {:induction false} FinishedBatchStaysFinished(states: seq<State>, events: seq<Event>, i: nat, j: nat, a: AssetId, r: RunId)
    requires Run(states, events) && i < j < |states|
    requires Commits(states, events, i, a) && a in states[i].assets && states[i].assets[a].taskRun == r
    requires r != 0 && r in states[i].runs
    requires BatchReady(states[i + 1].assets, r, states[i].assets[a].kind)
    ensures r in states[i + 1].runs && r in states[j].runs
    ensures TaskRuns.IsTerminal(states[j].runs[r].status) && states[j].runs[r].status == states[i + 1].runs[r].status
  {
    hide Inv, CommitStep, BatchReady;
    LastCommitCompletes(states[i], events[i].now, a, events[i].op.token, events[i].op.objectId);
    hide Apply;
    StatusesMoveForward(states, events, i + 1, j);
  }
}
