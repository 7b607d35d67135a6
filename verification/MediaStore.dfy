/** The media tables as the code keeps them: every transaction updates rows in place, statement by
    statement, and a failing one puts back what it had written. Each is proved to be the step of `Media`. */
module MediaTables {
  import opened Wrappers
  import TaskRuns
  import opened Media
  import MediaInvariant

  class MediaStore {
    const tasks: TaskRuns.TaskRunStore
    var assets: map<AssetId, Asset>
    var ordinals: map<(RunId, nat), AssetId>
    var objects: map<ObjectId, StoredObject>
    var jobs: map<AssetId, Job>
    var deletions: map<AssetId, DeletionJob>
    var nextAsset: AssetId

    ghost function Contents(): State
      reads this, tasks
    {
      State(tasks.runs, tasks.nextToken, assets, ordinals, objects, jobs, deletions, nextAsset)
    }

    constructor ()
      ensures fresh(tasks)
      ensures Contents() == State(map[], 0, map[], map[], map[], map[], map[], 0)
      ensures MediaInvariant.Inv(Contents())
    {
      tasks := new TaskRuns.TaskRunStore();
      assets, ordinals, objects, jobs, deletions, nextAsset := map[], map[], map[], map[], map[], 0;
    }

    // ---------------------------------------------------------------- assets and first jobs

    method CreateAsset(asset: Asset) returns (id: AssetId)
      modifies this
      ensures id == old(nextAsset) && Contents() == AddAsset(old(Contents()), asset)
    {
      id := nextAsset;
      assets := assets[id := asset];
      ordinals := ordinals[(asset.taskRun, asset.ordinal) := id];
      nextAsset := id + 1;
    }

    /** Draws the random part of a lease owner. */
    method DrawToken() returns (token: Token)
      modifies tasks`nextToken
      ensures token == old(tasks.nextToken) && tasks.nextToken == token + 1
    {
      token := tasks.nextToken;
      tasks.nextToken := token + 1;
    }

    method CreateForMaterialization(taskRun: RunId, kind: Kind, ordinal: nat, lease: int, now: Time) returns (err: Option<Error>)
      modifies this, tasks
      ensures Step(Contents(), err) == CreateForMaterializationStep(old(Contents()), now, taskRun, kind, ordinal, lease)
    {
      if (taskRun, ordinal) in ordinals { return Some(DuplicateKey); }
      var name := kind;
      if name == NoKind { name := UnknownKind; }
      var id := CreateAsset(Asset(taskRun, name, ordinal, Materializing, None));
      var token := DrawToken();
      jobs := jobs[id := Job(JobRunning, Some(token), Some(now + EffectiveLease(lease)), None, 1)];
      return None;
    }

    method EnsureSlotRow(taskRun: RunId, kind: Kind, ordinal: nat)
      modifies this
      ensures Contents() == EnsureSlot(old(Contents()), taskRun, kind, ordinal)
    {
      var id;
      if (taskRun, ordinal) in ordinals {
        id := ordinals[(taskRun, ordinal)];
      } else {
        id := CreateAsset(Asset(taskRun, kind, ordinal, Pending, None));
      }
      if id !in jobs { jobs := jobs[id := NEW_JOB]; }
    }

    method EnsureResultMedia(taskRun: RunId, kind: Kind, urls: seq<Option<Url>>) returns (err: Option<Error>)
      modifies this
      ensures Step(Contents(), err) == EnsureResultMediaStep(old(Contents()), taskRun, kind, urls)
    {
      if taskRun == 0 { return Some(InvalidIdentity); }
      for n := 0 to |urls|
        invariant Contents() == EnsureSlots(old(Contents()), taskRun, kind, urls, n)
      {
        if urls[n].Some? { EnsureSlotRow(taskRun, kind, n); }
      }
      return None;
    }

    method EnsureContentMedia(taskRun: RunId, kind: Kind) returns (err: Option<Error>)
      modifies this
      ensures Step(Contents(), err) == EnsureContentMediaStep(old(Contents()), taskRun, kind)
    {
      if taskRun == 0 || kind == NoKind { return Some(InvalidIdentity); }
      if taskRun !in tasks.runs { return Some(TaskError(TaskRuns.NotFound)); }
      if tasks.runs[taskRun].providerTaskId.None? { return Some(InvalidIdentity); }
      if (taskRun, 0) in ordinals {
        var taken := ordinals[(taskRun, 0)];
        if taken in assets && assets[taken].kind != kind { return Some(DuplicateKey); }
      }
      EnsureSlotRow(taskRun, kind, 0);
      return None;
    }

    // ---------------------------------------------------------------- materialization leases

    method ClaimJob(a: AssetId, lease: int, now: Time) returns (err: Option<Error>)
      modifies this, tasks
      ensures Step(Contents(), err) == ClaimJobStep(old(Contents()), now, a, lease)
    {
      if a !in jobs || !Claimable(jobs[a], now) { return Some(JobUnavailable); }
      var token := DrawToken();
      jobs := jobs[a := jobs[a].(status := JobRunning, owner := Some(token), expires := Some(now + EffectiveLease(lease)), attempts := jobs[a].attempts + 1)];
      return None;
    }

    method ClaimAsset(a: AssetId, lease: int, now: Time) returns (err: Option<Error>)
      modifies this, tasks
      ensures Step(Contents(), err) == ClaimAssetStep(old(Contents()), now, a, lease)
    {
      if a !in jobs || !Claimable(jobs[a], now) || a !in assets || !Retryable(assets[a].status) { return Some(JobUnavailable); }
      var token := DrawToken();
      jobs := jobs[a := jobs[a].(status := JobRunning, owner := Some(token), expires := Some(now + EffectiveLease(lease)), attempts := jobs[a].attempts + 1)];
      assets := assets[a := assets[a].(status := Materializing)];
      return None;
    }

    method RenewJob(a: AssetId, token: Token, lease: int, now: Time) returns (err: Option<Error>)
      modifies this
      ensures Step(Contents(), err) == RenewJobStep(old(Contents()), now, a, token, lease)
    {
      if lease <= 0 || a !in jobs || !Leased(jobs[a], token, now) { return Some(LeaseMismatch); }
      jobs := jobs[a := jobs[a].(expires := Some(now + lease))];
      return None;
    }

    method CompleteJob(a: AssetId, token: Token, now: Time) returns (err: Option<Error>)
      modifies this
      ensures Step(Contents(), err) == CompleteJobStep(old(Contents()), now, a, token)
    {
      if a !in jobs || !Leased(jobs[a], token, now) { return Some(LeaseMismatch); }
      jobs := jobs[a := jobs[a].(status := JobSucceeded, owner := None, expires := None)];
      return None;
    }

    method FailJob(a: AssetId, token: Token, next: Option<Time>, now: Time) returns (err: Option<Error>)
      modifies this
      ensures Step(Contents(), err) == FailJobStep(old(Contents()), now, a, token, next)
    {
      if a !in jobs || !Leased(jobs[a], token, now) { return Some(LeaseMismatch); }
      var status := JobFailed;
      if next.Some? { status := JobPending; }
      jobs := jobs[a := jobs[a].(status := status, owner := None, expires := None, nextAttempt := next)];
      return None;
    }

    method FailWithAsset(a: AssetId, token: Token, next: Option<Time>, now: Time) returns (err: Option<Error>)
      modifies this
      ensures Step(Contents(), err) == FailWithAssetStep(old(Contents()), now, a, token, next)
    {
      var saved := jobs;
      err := FailJob(a, token, next, now);
      if err.Some? { return; }
      if a !in assets || Revoked(assets[a].status) {
        jobs := saved;
        return Some(AssetNotFound);
      }
      assets := assets[a := assets[a].(status := AssetStatus.Failed)];
    }

    // ---------------------------------------------------------------- availability

    /** Moves a live asset onto an object and keeps both counts. */
    method MarkAvailable(a: AssetId, o: ObjectId) returns (err: Option<Error>)
      modifies this
      ensures Step(Contents(), err) == MarkAvailableStep(old(Contents()), a, o)
    {
      if a !in assets { return Some(AssetNotFound); }
      var asset := assets[a];
      if Revoked(asset.status) { return Some(AssetGone); }
      if o !in objects { return Some(AssetNotFound); }
      if objects[o].state == ObjectState.Deleted { return Some(AssetGone); }
      if asset.objectId != Some(o) {
        if asset.objectId.Some? { Detach(asset.objectId.value); }
        var references := LiveRefs(assets, o) - {a};
        objects := objects[o := objects[o].(state := Ready)];
        if references != {} { objects := objects[o := objects[o].(refCount := objects[o].refCount + 1)]; }
      }
      assets := assets[a := asset.(objectId := Some(o), status := Available)];
      return None;
    }

    method Detach(o: ObjectId)
      modifies this`objects
      ensures objects == LeaveObject(old(objects), o)
      ensures objects.Keys == old(objects.Keys)
      ensures forall p :: p in objects && p != o ==> objects[p] == old(objects)[p]
    {
      if o in objects {
        var left := objects[o];
        if left.refCount > 0 { left := left.(refCount := left.refCount - 1); }
        if left.refCount <= 0 && left.state != ObjectState.Deleted { left := left.(state := DeletePending); }
        objects := objects[o := left];
      }
    }

    /** Counts the batch, and promotes the run when nothing in it is missing. */
    method CompleteTask(run: RunId, kind: Kind, now: Time) returns (err: Option<Error>)
      modifies tasks
      ensures Step(Contents(), err) == CompleteTaskStep(old(Contents()), now, run, kind)
    {
      if run == 0 { return Some(InvalidIdentity); }
      if run !in tasks.runs { return Some(TaskError(TaskRuns.NotFound)); }
      if TaskRuns.IsTerminal(tasks.runs[run].status) { return None; }
      var batch := set a | a in assets && InBatch(assets[a], run, kind);
      assert forall a :: a in assets && InBatch(assets[a], run, kind) ==> a in batch;
      if batch == {} { return None; }
      assert exists a :: a in batch;
      var unavailable := set a | a in batch && (assets[a].status != Available || assets[a].objectId.None?);
      if unavailable != {} {
        assert exists a :: a in unavailable;
        return None;
      }
      assert forall a :: a in batch ==> a !in unavailable;
      tasks.Promote(run, now);
      return None;
    }

    /** Finishes the job, records the object, marks the asset and completes the task as one transaction. */
    method Commit(a: AssetId, token: Token, o: ObjectId, now: Time) returns (err: Option<Error>)
      modifies this, tasks
      ensures Step(Contents(), err) == CommitStep(old(Contents()), now, a, token, o)
    {
      if a !in jobs || !Leased(jobs[a], token, now) { return Some(LeaseMismatch); }
      var savedJobs, savedObjects := jobs, objects;
      jobs := jobs[a := jobs[a].(status := JobSucceeded, owner := None, expires := None)];
      if o in objects {
        jobs := savedJobs;
        return Some(DuplicateKey);
      }
      objects := objects[o := StoredObject(Ready, 1, 0)];
      err := MarkAvailable(a, o);
      if err.Some? {
        jobs, objects := savedJobs, savedObjects;
        return;
      }
      var asset := assets[a];
      if asset.taskRun != 0 && asset.taskRun in tasks.runs {
        err := CompleteTask(asset.taskRun, asset.kind, now);
      }
    }

    method RetryMaterialization(a: AssetId, now: Time) returns (err: Option<Error>)
      modifies this
      ensures Step(Contents(), err) == RetryMaterializationStep(old(Contents()), now, a)
    {
      if a !in assets || !Retryable(assets[a].status) { return Some(AssetNotFound); }
      if a in jobs && Busy(jobs[a], now) { return None; }
      assets := assets[a := assets[a].(status := Materializing)];
      if a !in jobs {
        jobs := jobs[a := NEW_JOB];
      } else {
        jobs := jobs[a := jobs[a].(status := JobPending, nextAttempt := None, owner := None, expires := None)];
      }
      return None;
    }

    // ---------------------------------------------------------------- deletion

    method RequestDelete(a: AssetId) returns (err: Option<Error>)
      modifies this
      ensures Step(Contents(), err) == RequestDeleteStep(old(Contents()), a)
    {
      if a !in assets { return Some(AssetNotFound); }
      var asset := assets[a];
      if asset.status == AssetStatus.Deleted { return None; }
      var already := Revoked(asset.status);
      if !already { assets := assets[a := asset.(status := DeleteRequested)]; }
      if asset.objectId.Some? && asset.objectId.value in objects {
        var o := asset.objectId.value;
        var row := objects[o];
        if !already && row.state != ObjectState.Deleted && row.refCount > 0 {
          var state := DeletePending;
          if row.refCount > 1 { state := Ready; }
          objects := objects[o := row.(refCount := row.refCount - 1, state := state)];
        }
      }
      if a !in deletions { deletions := deletions[a := DeletionJob(NEW_JOB, false)]; }
      return None;
    }

    method ClaimDeletion(a: AssetId, lease: int, now: Time) returns (err: Option<Error>)
      modifies this, tasks
      ensures Step(Contents(), err) == ClaimDeletionStep(old(Contents()), now, a, lease)
    {
      if a !in deletions || !Claimable(deletions[a].job, now) { return Some(JobUnavailable); }
      var token := DrawToken();
      var job := deletions[a].job;
      job := job.(status := JobRunning, owner := Some(token), expires := Some(now + EffectiveLease(lease)), attempts := job.attempts + 1);
      deletions := deletions[a := deletions[a].(job := job)];
      return None;
    }

    method RenewDeletion(a: AssetId, token: Token, lease: int, now: Time) returns (err: Option<Error>)
      modifies this
      ensures Step(Contents(), err) == RenewDeletionStep(old(Contents()), now, a, token, lease)
    {
      if lease <= 0 || a !in deletions || !Leased(deletions[a].job, token, now) { return Some(LeaseMismatch); }
      deletions := deletions[a := deletions[a].(job := deletions[a].job.(expires := Some(now + lease)))];
      return None;
    }

    method FinishAssetDelete(a: AssetId)
      modifies this
      ensures Contents() == CompleteAssetDelete(old(Contents()), a)
    {
      if a !in assets || assets[a].status == AssetStatus.Deleted { return; }
      var asset := assets[a];
      if asset.objectId.Some? && asset.objectId.value in objects {
        var o := asset.objectId.value;
        if objects[o].refCount > 0 {
          objects := objects[o := objects[o].(state := Ready)];
        } else {
          objects := objects[o := objects[o].(state := ObjectState.Deleted, refCount := 0)];
        }
      }
      assets := assets[a := asset.(status := AssetStatus.Deleted)];
    }

    method HardDeleteAsset(a: AssetId)
      modifies this
      ensures Contents() == HardDelete(old(Contents()), a)
    {
      if a !in assets { return; }
      var asset := assets[a];
      if asset.objectId.Some? && asset.objectId.value in objects {
        var o := asset.objectId.value;
        var others := OtherRefs(assets, o, a);
        if others == {} {
          objects := objects - {o};
        } else if !Revoked(asset.status) {
          var count := if objects[o].refCount > 0 then objects[o].refCount - 1 else 0;
          objects := objects[o := objects[o].(refCount := count)];
        }
      }
      deletions := deletions - {a};
      jobs := jobs - {a};
      assets := assets - {a};
      ordinals := ordinals - {(asset.taskRun, asset.ordinal)};
    }

    method CompleteDeletion(a: AssetId, token: Token, now: Time) returns (err: Option<Error>)
      modifies this
      ensures Step(Contents(), err) == CompleteDeletionStep(old(Contents()), now, a, token)
    {
      if a !in deletions || !Leased(deletions[a].job, token, now) { return Some(LeaseMismatch); }
      var purge := deletions[a].purge;
      var job := deletions[a].job.(status := JobSucceeded, owner := None, expires := None);
      deletions := deletions[a := deletions[a].(job := job)];
      FinishAssetDelete(a);
      if purge { HardDeleteAsset(a); }
      return None;
    }

    method FailDeletion(a: AssetId, token: Token, next: Option<Time>, now: Time) returns (err: Option<Error>)
      modifies this
      ensures Step(Contents(), err) == FailDeletionStep(old(Contents()), now, a, token, next)
    {
      if a !in deletions || !Leased(deletions[a].job, token, now) { return Some(LeaseMismatch); }
      var saved := deletions;
      var status := JobFailed;
      if next.Some? { status := JobPending; }
      var job := deletions[a].job.(status := status, owner := None, expires := None, nextAttempt := next);
      deletions := deletions[a := deletions[a].(job := job)];
      if a !in assets {
        deletions := saved;
        return Some(AssetNotFound);
      }
      var asset := assets[a];
      if asset.status == AssetStatus.Deleted { return None; }
      assets := assets[a := asset.(status := AssetStatus.DeleteFailed)];
      if asset.objectId.Some? { MarkDead(asset.objectId.value, ObjectState.DeleteFailed, 1); }
      return None;
    }

    method MarkDead(o: ObjectId, state: ObjectState, attempts: nat)
      modifies this`objects
      ensures objects == SetDeadState(old(objects), o, state, attempts)
    {
      if o in objects && objects[o].refCount <= 0 {
        objects := objects[o := objects[o].(state := state, deleteAttempts := objects[o].deleteAttempts + attempts)];
      }
    }

    method RetryDeletion(a: AssetId, now: Time) returns (err: Option<Error>)
      modifies this
      ensures Step(Contents(), err) == RetryDeletionStep(old(Contents()), now, a)
    {
      if a !in assets { return Some(AssetNotFound); }
      var asset := assets[a];
      if asset.status != AssetStatus.DeleteFailed && asset.status != DeleteRequested { return Some(AssetNotFound); }
      if a in deletions && Busy(deletions[a].job, now) { return None; }
      assets := assets[a := asset.(status := DeleteRequested)];
      if asset.objectId.Some? { MarkDead(asset.objectId.value, DeletePending, 0); }
      if a !in deletions {
        deletions := deletions[a := DeletionJob(NEW_JOB, false)];
      } else {
        var job := deletions[a].job.(status := JobPending, nextAttempt := None, owner := None, expires := None);
        deletions := deletions[a := deletions[a].(job := job)];
      }
      return None;
    }

    method RequestPurge(a: AssetId) returns (err: Option<Error>)
      modifies this
      ensures Step(Contents(), err) == RequestPurgeStep(old(Contents()), a)
    {
      if a !in assets { return None; }
      if assets[a].status == AssetStatus.Deleted {
        HardDeleteAsset(a);
        return None;
      }
      err := RequestDelete(a);
      if a in deletions { deletions := deletions[a := deletions[a].(purge := true)]; }
    }

    /** True, here no error, when the caller may delete the object's file. */
    method PrepareDeletion(o: ObjectId) returns (err: Option<Error>)
      modifies this
      ensures Step(Contents(), err) == PrepareDeletionStep(old(Contents()), o)
    {
      if o !in objects || !Deletable(objects[o].state) || objects[o].refCount > 0 { return Some(NotPrepared); }
      objects := objects[o := objects[o].(state := Deleting)];
      return None;
    }

    // ---------------------------------------------------------------- tasks

    method Task(op: TaskRuns.Op, now: Time) returns (err: Option<Error>)
      modifies tasks
      ensures Step(Contents(), err) == TaskStep(old(Contents()), now, op)
    {
      var refused := tasks.Execute(op, now);
      err := if refused.Some? then Some(TaskError(refused.value)) else None;
    }

    method ProjectMedia(run: RunId, kind: Kind, failed: bool, now: Time) returns (err: Option<Error>)
      modifies tasks
      ensures Step(Contents(), err) == ProjectMediaStep(old(Contents()), now, run, kind, failed)
    {
      if !failed && BatchReady(assets, run, kind) {
        err := CompleteTask(run, kind, now);
      } else {
        err := Task(TaskRuns.UpdateStatus(run, TaskRuns.Materializing, TaskRuns.PendingOutcome), now);
      }
    }
  }
}
