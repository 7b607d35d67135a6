/** The leased media pipeline: every transaction of db/media.go, db/media_materialization_lease.go,
    db/media_purge.go, the asset half of db/task.go and the state transaction of
    router/profile_retention_execution.go, as functions on the tables they change. */
module Media {
  import opened Wrappers
  import TaskRuns

  type Time = TaskRuns.Time
  type Token = TaskRuns.Token
  type RunId = TaskRuns.RunId
  type AssetId = nat

  type Url = string

  datatype Kind = NoKind | UnknownKind | Image | Video | OtherKind(name: string)

  /** A worker stores its file under a key made from its lease token, and the object's id is a digest of
      that key (task/media_materialization_execution.go): the token stands for the id. */
  type ObjectId = Token

  const DEFAULT_LEASE: int := 300_000  // five minutes, in milliseconds

  datatype AssetStatus = Pending | Materializing | Available | DeleteRequested | DeleteFailed | Deleted | Expired | Failed

  datatype ObjectState = Staging | Ready | DeletePending | Deleting | DeleteFailed | Deleted

  datatype JobStatus = JobPending | JobRunning | JobSucceeded | JobFailed

  datatype Asset = Asset(taskRun: RunId, kind: Kind, ordinal: nat, status: AssetStatus, objectId: Option<ObjectId>)

  datatype StoredObject = StoredObject(state: ObjectState, refCount: int, deleteAttempts: nat)

  datatype Job = Job(status: JobStatus, owner: Option<Token>, expires: Option<Time>, nextAttempt: Option<Time>, attempts: nat)

  datatype DeletionJob = DeletionJob(job: Job, purge: bool)

  /** Job rows are keyed by asset_id, which carries a unique index in both job tables; `ordinals` is the
      unique index on (task_run_id, ordinal). */
  datatype State = State(
    runs: map<RunId, TaskRuns.TaskRun>,
    nextToken: Token,
    assets: map<AssetId, Asset>,
    ordinals: map<(RunId, nat), AssetId>,
    objects: map<ObjectId, StoredObject>,
    jobs: map<AssetId, Job>,
    deletions: map<AssetId, DeletionJob>,
    nextAsset: AssetId)

  datatype Error =
    | InvalidIdentity | DuplicateKey
    | AssetNotFound | AssetGone
    | JobUnavailable | LeaseMismatch
    | NotPrepared
    | TaskError(error: TaskRuns.Error)

  datatype Step = Step(state: State, err: Option<Error>)

  datatype Op =
    | CreateForMaterialization(taskRun: RunId, kind: Kind, ordinal: nat, lease: int)
    | EnsureResultMedia(taskRun: RunId, kind: Kind, urls: seq<Option<Url>>)
    | EnsureContentMedia(taskRun: RunId, kind: Kind)
    | ClaimJob(asset: AssetId, lease: int)
    | ClaimAsset(asset: AssetId, lease: int)
    | RenewJob(asset: AssetId, token: Token, lease: int)
    | Commit(asset: AssetId, token: Token, objectId: ObjectId)
    | CompleteJob(asset: AssetId, token: Token)
    | FailJob(asset: AssetId, token: Token, next: Option<Time>)
    | FailWithAsset(asset: AssetId, token: Token, next: Option<Time>)
    | RetryMaterialization(asset: AssetId)
    | MarkAvailable(asset: AssetId, objectId: ObjectId)
    | RequestDelete(asset: AssetId)
    | ClaimDeletion(asset: AssetId, lease: int)
    | RenewDeletion(asset: AssetId, token: Token, lease: int)
    | CompleteDeletion(asset: AssetId, token: Token)
    | FailDeletion(asset: AssetId, token: Token, next: Option<Time>)
    | RetryDeletion(asset: AssetId)
    | RequestPurge(asset: AssetId)
    | PrepareDeletion(objectId: ObjectId)
    | CompleteTask(run: RunId, kind: Kind)
    | ProjectMedia(run: RunId, kind: Kind, failed: bool)
    | Task(op: TaskRuns.Op)

  // ---------------------------------------------------------------- rows

  predicate Revoked(status: AssetStatus) {
    match status
    case Deleted | DeleteRequested | DeleteFailed | Expired => true
    case _ => false
  }

  predicate Retryable(status: AssetStatus) {
    match status
    case Failed | Pending | Materializing => true
    case _ => false
  }

  predicate Deletable(state: ObjectState) {
    match state
    case DeletePending | DeleteFailed | Deleting => true
    case _ => false
  }

  /** The live assets that point at an object. */
  function LiveRefs(assets: map<AssetId, Asset>, o: ObjectId): set<AssetId> {
    set a | a in assets && assets[a].objectId == Some(o) && !Revoked(assets[a].status)
  }

  /** Every other asset that points at an object, live or not. */
  function OtherRefs(assets: map<AssetId, Asset>, o: ObjectId, self: AssetId): set<AssetId> {
    set a | a in assets && a != self && assets[a].objectId == Some(o)
  }

  predicate Claimable(job: Job, now: Time) {
    && job.status != JobSucceeded
    && (job.nextAttempt.None? || job.nextAttempt.value <= now)
    && (job.expires.None? || job.expires.value <= now)
  }

  predicate Leased(job: Job, token: Token, now: Time) {
    job.status == JobRunning && job.owner == Some(token) && job.expires.Some? && job.expires.value > now
  }

  /** A lease of any owner that is still running. */
  predicate Busy(job: Job, now: Time) {
    job.status == JobRunning && job.expires.Some? && job.expires.value > now
  }

  function EffectiveLease(lease: int): (d: int)
    ensures d > 0
  {
    if lease <= 0 then DEFAULT_LEASE else lease
  }

  const NEW_JOB: Job := Job(JobPending, None, None, None, 0)

  function Claimed(job: Job, token: Token, expires: Time): Job {
    job.(status := JobRunning, owner := Some(token), expires := Some(expires), attempts := job.attempts + 1)
  }

  function Finished(job: Job): Job {
    job.(status := JobSucceeded, owner := None, expires := None)
  }

  function Abandoned(job: Job, next: Option<Time>): Job {
    job.(status := if next.Some? then JobPending else JobFailed, owner := None, expires := None, nextAttempt := next)
  }

  function Requeued(job: Job): Job {
    job.(status := JobPending, owner := None, expires := None, nextAttempt := None)
  }

  predicate InBatch(asset: Asset, run: RunId, kind: Kind) {
    asset.taskRun == run && (kind == NoKind || asset.kind == kind)
  }

  /** The batch is non-empty and every asset in it is available with an object. */
  predicate BatchReady(assets: map<AssetId, Asset>, run: RunId, kind: Kind) {
    && (exists a :: a in assets && InBatch(assets[a], run, kind))
    && (forall a :: a in assets && InBatch(assets[a], run, kind) ==>
          assets[a].status == Available && assets[a].objectId.Some?)
  }

  // ---------------------------------------------------------------- objects

  /** One live reference leaves: the row's count, and its state when the count reaches zero. */
  function DropReference(objects: map<ObjectId, StoredObject>, o: ObjectId): map<ObjectId, StoredObject> {
    if o in objects && objects[o].state != ObjectState.Deleted && objects[o].refCount > 0 then
      objects[o := objects[o].(refCount := objects[o].refCount - 1,
                               state := if objects[o].refCount > 1 then Ready else DeletePending)]
    else objects
  }

  /** What happens to the object an asset moves away from. */
  function LeaveObject(objects: map<ObjectId, StoredObject>, o: ObjectId): map<ObjectId, StoredObject> {
    if o !in objects then objects
    else
      var left := if objects[o].refCount > 0 then objects[o].(refCount := objects[o].refCount - 1) else objects[o];
      objects[o := if left.refCount <= 0 && left.state != ObjectState.Deleted then left.(state := DeletePending) else left]
  }

  /** What happens to the object an asset moves to: only a second live reference counts up. */
  function JoinObject(objects: map<ObjectId, StoredObject>, o: ObjectId, others: nat): map<ObjectId, StoredObject>
    requires o in objects
  {
    objects[o := objects[o].(state := Ready, refCount := objects[o].refCount + if others > 0 then 1 else 0)]
  }

  function FinishDelete(objects: map<ObjectId, StoredObject>, o: ObjectId): map<ObjectId, StoredObject> {
    if o !in objects then objects
    else if objects[o].refCount > 0 then objects[o := objects[o].(state := Ready)]
    else objects[o := objects[o].(state := ObjectState.Deleted, refCount := 0)]
  }

  function SetDeadState(objects: map<ObjectId, StoredObject>, o: ObjectId, state: ObjectState, attempts: nat): map<ObjectId, StoredObject> {
    if o in objects && objects[o].refCount <= 0 then
      objects[o := objects[o].(state := state, deleteAttempts := objects[o].deleteAttempts + attempts)]
    else objects
  }

  // ---------------------------------------------------------------- transactions

  function Fail(s: State, e: Error): Step { Step(s, Some(e)) }

  function Done(s: State): Step { Step(s, None) }

  function AddAsset(s: State, asset: Asset): State {
    s.(assets := s.assets[s.nextAsset := asset],
       ordinals := s.ordinals[(asset.taskRun, asset.ordinal) := s.nextAsset],
       nextAsset := s.nextAsset + 1)
  }

  function CreateForMaterializationStep(s: State, now: Time, taskRun: RunId, kind: Kind, ordinal: nat, lease: int): Step {
    if (taskRun, ordinal) in s.ordinals then Fail(s, DuplicateKey)
    else
      var job := Claimed(NEW_JOB, s.nextToken, now + EffectiveLease(lease));
      var name := if kind == NoKind then UnknownKind else kind;
      var t := AddAsset(s, Asset(taskRun, name, ordinal, Materializing, None));
      Done(t.(jobs := t.jobs[s.nextAsset := job], nextToken := s.nextToken + 1))
  }

  /** The asset of a result slot, created when missing, with a pending job when it has none. */
  function EnsureSlot(s: State, taskRun: RunId, kind: Kind, ordinal: nat): State {
    var t := if (taskRun, ordinal) in s.ordinals then s
             else AddAsset(s, Asset(taskRun, kind, ordinal, Pending, None));
    EnsureJob(t, t.ordinals[(taskRun, ordinal)])
  }

  function EnsureJob(s: State, a: AssetId): State {
    if a in s.jobs then s else s.(jobs := s.jobs[a := NEW_JOB])
  }

  /** Slots for the first n urls, in order; a blank url keeps its ordinal but gets no asset. */
  function EnsureSlots(s: State, taskRun: RunId, kind: Kind, urls: seq<Option<Url>>, n: nat): State
    requires n <= |urls|
  {
    if n == 0 then s
    else
      var t := EnsureSlots(s, taskRun, kind, urls, n - 1);
      if urls[n - 1].None? then t else EnsureSlot(t, taskRun, kind, n - 1)
  }

  function EnsureResultMediaStep(s: State, taskRun: RunId, kind: Kind, urls: seq<Option<Url>>): Step {
    if taskRun == 0 then Fail(s, InvalidIdentity)
    else Done(EnsureSlots(s, taskRun, kind, urls, |urls|))
  }

  function EnsureContentMediaStep(s: State, taskRun: RunId, kind: Kind): Step {
    if taskRun == 0 || kind == NoKind then Fail(s, InvalidIdentity)
    else if taskRun !in s.runs then Fail(s, TaskError(TaskRuns.NotFound))
    else if s.runs[taskRun].providerTaskId.None? then Fail(s, InvalidIdentity)
    else if (taskRun, 0) in s.ordinals && HasOtherKind(s, taskRun, kind) then Fail(s, DuplicateKey)
    else Done(EnsureSlot(s, taskRun, kind, 0))
  }

  /** Ordinal 0 of the run is taken by an asset of another kind. */
  predicate HasOtherKind(s: State, taskRun: RunId, kind: Kind)
    requires (taskRun, 0) in s.ordinals
  {
    var a := s.ordinals[(taskRun, 0)];
    a in s.assets && s.assets[a].kind != kind
  }

  function ClaimJobStep(s: State, now: Time, a: AssetId, lease: int): Step {
    if a !in s.jobs || !Claimable(s.jobs[a], now) then Fail(s, JobUnavailable)
    else Done(s.(jobs := s.jobs[a := Claimed(s.jobs[a], s.nextToken, now + EffectiveLease(lease))], nextToken := s.nextToken + 1))
  }

  function ClaimAssetStep(s: State, now: Time, a: AssetId, lease: int): Step {
    if a !in s.jobs || !Claimable(s.jobs[a], now) || a !in s.assets || !Retryable(s.assets[a].status) then Fail(s, JobUnavailable)
    else
      Done(s.(jobs := s.jobs[a := Claimed(s.jobs[a], s.nextToken, now + EffectiveLease(lease))],
              assets := s.assets[a := s.assets[a].(status := Materializing)],
              nextToken := s.nextToken + 1))
  }

  function RenewJobStep(s: State, now: Time, a: AssetId, token: Token, lease: int): Step {
    if lease <= 0 || a !in s.jobs || !Leased(s.jobs[a], token, now) then Fail(s, LeaseMismatch)
    else Done(s.(jobs := s.jobs[a := s.jobs[a].(expires := Some(now + lease))]))
  }

  function CompleteJobStep(s: State, now: Time, a: AssetId, token: Token): Step {
    if a !in s.jobs || !Leased(s.jobs[a], token, now) then Fail(s, LeaseMismatch)
    else Done(s.(jobs := s.jobs[a := Finished(s.jobs[a])]))
  }

  function FailJobStep(s: State, now: Time, a: AssetId, token: Token, next: Option<Time>): Step {
    if a !in s.jobs || !Leased(s.jobs[a], token, now) then Fail(s, LeaseMismatch)
    else Done(s.(jobs := s.jobs[a := Abandoned(s.jobs[a], next)]))
  }

  function FailWithAssetStep(s: State, now: Time, a: AssetId, token: Token, next: Option<Time>): Step {
    var failed := FailJobStep(s, now, a, token, next);
    if failed.err.Some? then failed
    else if a !in s.assets || Revoked(s.assets[a].status) then Fail(s, AssetNotFound)
    else Done(failed.state.(assets := s.assets[a := s.assets[a].(status := AssetStatus.Failed)]))
  }

  function MarkAvailableStep(s: State, a: AssetId, o: ObjectId): (r: Step)
    ensures r.err.None? ==> a in s.assets
  {
    if a !in s.assets then Fail(s, AssetNotFound)
    else if Revoked(s.assets[a].status) then Fail(s, AssetGone)
    else if o !in s.objects then Fail(s, AssetNotFound)
    else if s.objects[o].state == ObjectState.Deleted then Fail(s, AssetGone)
    else
      var asset := s.assets[a];
      var objects :=
        if asset.objectId == Some(o) then s.objects
        else
          var left := if asset.objectId.Some? then LeaveObject(s.objects, asset.objectId.value) else s.objects;
          JoinObject(left, o, |LiveRefs(s.assets, o) - {a}|);
      Done(s.(objects := objects, assets := s.assets[a := asset.(objectId := Some(o), status := Available)]))
  }

  /** Promotes a run whose whole batch is available; a run that is missing is an error of its own. */
  function CompleteTaskStep(s: State, now: Time, run: RunId, kind: Kind): Step {
    if run == 0 then Fail(s, InvalidIdentity)
    else if run !in s.runs then Fail(s, TaskError(TaskRuns.NotFound))
    else if TaskRuns.IsTerminal(s.runs[run].status) || !BatchReady(s.assets, run, kind) then Done(s)
    else Done(s.(runs := s.runs[run := TaskRuns.Promoted(s.runs[run], now)]))
  }

  function CommitStep(s: State, now: Time, a: AssetId, token: Token, o: ObjectId): Step {
    if a !in s.jobs || !Leased(s.jobs[a], token, now) then Fail(s, LeaseMismatch)
    else if o in s.objects then Fail(s, DuplicateKey)
    else
      var stored := s.(jobs := s.jobs[a := Finished(s.jobs[a])], objects := s.objects[o := StoredObject(Ready, 1, 0)]);
      var marked := MarkAvailableStep(stored, a, o);
      if marked.err.Some? then Fail(s, marked.err.value)
      else if s.assets[a].taskRun == 0 || s.assets[a].taskRun !in s.runs then marked
      else CompleteTaskStep(marked.state, now, s.assets[a].taskRun, s.assets[a].kind)
  }

  function RetryMaterializationStep(s: State, now: Time, a: AssetId): Step {
    if a !in s.assets || !Retryable(s.assets[a].status) then Fail(s, AssetNotFound)
    else if a in s.jobs && Busy(s.jobs[a], now) then Done(s)
    else
      Done(s.(assets := s.assets[a := s.assets[a].(status := Materializing)],
              jobs := s.jobs[a := if a in s.jobs then Requeued(s.jobs[a]) else NEW_JOB]))
  }

  function EnsureDeletion(deletions: map<AssetId, DeletionJob>, a: AssetId): map<AssetId, DeletionJob> {
    if a in deletions then deletions else deletions[a := DeletionJob(NEW_JOB, false)]
  }

  function RequestDeleteStep(s: State, a: AssetId): Step {
    if a !in s.assets then Fail(s, AssetNotFound)
    else if s.assets[a].status == AssetStatus.Deleted then Done(s)
    else
      var asset := s.assets[a];
      var deletions := EnsureDeletion(s.deletions, a);
      if Revoked(asset.status) then Done(s.(deletions := deletions))
      else
        Done(s.(assets := s.assets[a := asset.(status := DeleteRequested)],
                objects := if asset.objectId.Some? then DropReference(s.objects, asset.objectId.value) else s.objects,
                deletions := deletions))
  }

  function ClaimDeletionStep(s: State, now: Time, a: AssetId, lease: int): Step {
    if a !in s.deletions || !Claimable(s.deletions[a].job, now) then Fail(s, JobUnavailable)
    else
      var job := Claimed(s.deletions[a].job, s.nextToken, now + EffectiveLease(lease));
      Done(s.(deletions := s.deletions[a := s.deletions[a].(job := job)], nextToken := s.nextToken + 1))
  }

  function RenewDeletionStep(s: State, now: Time, a: AssetId, token: Token, lease: int): Step {
    if lease <= 0 || a !in s.deletions || !Leased(s.deletions[a].job, token, now) then Fail(s, LeaseMismatch)
    else
      var job := s.deletions[a].job.(expires := Some(now + lease));
      Done(s.(deletions := s.deletions[a := s.deletions[a].(job := job)]))
  }

  function CompleteAssetDelete(s: State, a: AssetId): State {
    if a !in s.assets || s.assets[a].status == AssetStatus.Deleted then s
    else
      var asset := s.assets[a];
      s.(objects := if asset.objectId.Some? then FinishDelete(s.objects, asset.objectId.value) else s.objects,
         assets := s.assets[a := asset.(status := AssetStatus.Deleted)])
  }

  /** Removes the asset row, its jobs, and its object row when no other asset, live or revoked, names it. */
  function HardDelete(s: State, a: AssetId): State {
    if a !in s.assets then s
    else
      var asset := s.assets[a];
      var objects :=
        if asset.objectId.None? || asset.objectId.value !in s.objects then s.objects
        else if OtherRefs(s.assets, asset.objectId.value, a) == {} then s.objects - {asset.objectId.value}
        else if Revoked(asset.status) then s.objects
        else
          var o := s.objects[asset.objectId.value];
          s.objects[asset.objectId.value := o.(refCount := if o.refCount > 0 then o.refCount - 1 else 0)];
      s.(objects := objects, assets := s.assets - {a}, jobs := s.jobs - {a}, deletions := s.deletions - {a},
         ordinals := s.ordinals - {(asset.taskRun, asset.ordinal)})
  }

  function CompleteDeletionStep(s: State, now: Time, a: AssetId, token: Token): Step {
    if a !in s.deletions || !Leased(s.deletions[a].job, token, now) then Fail(s, LeaseMismatch)
    else
      var row := s.deletions[a];
      var done := CompleteAssetDelete(s.(deletions := s.deletions[a := row.(job := Finished(row.job))]), a);
      Done(if row.purge then HardDelete(done, a) else done)
  }

  function FailDeletionStep(s: State, now: Time, a: AssetId, token: Token, next: Option<Time>): Step {
    if a !in s.deletions || !Leased(s.deletions[a].job, token, now) then Fail(s, LeaseMismatch)
    else if a !in s.assets then Fail(s, AssetNotFound)
    else
      var t := s.(deletions := s.deletions[a := s.deletions[a].(job := Abandoned(s.deletions[a].job, next))]);
      var asset := s.assets[a];
      if asset.status == AssetStatus.Deleted then Done(t)
      else
        Done(t.(assets := s.assets[a := asset.(status := AssetStatus.DeleteFailed)],
                objects := if asset.objectId.Some? then SetDeadState(s.objects, asset.objectId.value, ObjectState.DeleteFailed, 1) else s.objects))
  }

  function RetryDeletionStep(s: State, now: Time, a: AssetId): Step {
    if a !in s.assets || (s.assets[a].status != AssetStatus.DeleteFailed && s.assets[a].status != DeleteRequested) then Fail(s, AssetNotFound)
    else if a in s.deletions && Busy(s.deletions[a].job, now) then Done(s)
    else
      var asset := s.assets[a];
      var row := if a in s.deletions then s.deletions[a].(job := Requeued(s.deletions[a].job)) else DeletionJob(NEW_JOB, false);
      Done(s.(assets := s.assets[a := asset.(status := DeleteRequested)],
              objects := if asset.objectId.Some? then SetDeadState(s.objects, asset.objectId.value, DeletePending, 0) else s.objects,
              deletions := s.deletions[a := row]))
  }

  function RequestPurgeStep(s: State, a: AssetId): Step {
    if a !in s.assets then Done(s)
    else if s.assets[a].status == AssetStatus.Deleted then Done(HardDelete(s, a))
    else
      var t := RequestDeleteStep(s, a).state;
      Done(t.(deletions := if a in t.deletions then t.deletions[a := t.deletions[a].(purge := true)] else t.deletions))
  }

  function PrepareDeletionStep(s: State, o: ObjectId): Step {
    if o !in s.objects || !Deletable(s.objects[o].state) || s.objects[o].refCount > 0
    then Fail(s, NotPrepared)
    else Done(s.(objects := s.objects[o := s.objects[o].(state := Deleting)]))
  }

  function TaskStep(s: State, now: Time, op: TaskRuns.Op): Step {
    var step := TaskRuns.Apply(TaskRuns.State(s.runs, s.nextToken), now, op);
    Step(s.(runs := step.state.runs, nextToken := step.state.nextToken), if step.err.Some? then Some(TaskError(step.err.value)) else None)
  }

  /** The accept path's last transaction: promote a batch a worker has already finished, otherwise wait for it. */
  function ProjectMediaStep(s: State, now: Time, run: RunId, kind: Kind, failed: bool): Step {
    if !failed && BatchReady(s.assets, run, kind) then CompleteTaskStep(s, now, run, kind)
    else TaskStep(s, now, TaskRuns.UpdateStatus(run, TaskRuns.Materializing, TaskRuns.PendingOutcome))
  }

  function Apply(s: State, now: Time, op: Op): Step {
    match op
    case CreateForMaterialization(r, kind, ordinal, lease) => CreateForMaterializationStep(s, now, r, kind, ordinal, lease)
    case EnsureResultMedia(r, kind, urls) => EnsureResultMediaStep(s, r, kind, urls)
    case EnsureContentMedia(r, kind) => EnsureContentMediaStep(s, r, kind)
    case ClaimJob(a, lease) => ClaimJobStep(s, now, a, lease)
    case ClaimAsset(a, lease) => ClaimAssetStep(s, now, a, lease)
    case RenewJob(a, token, lease) => RenewJobStep(s, now, a, token, lease)
    case Commit(a, token, o) => CommitStep(s, now, a, token, o)
    case CompleteJob(a, token) => CompleteJobStep(s, now, a, token)
    case FailJob(a, token, next) => FailJobStep(s, now, a, token, next)
    case FailWithAsset(a, token, next) => FailWithAssetStep(s, now, a, token, next)
    case RetryMaterialization(a) => RetryMaterializationStep(s, now, a)
    case MarkAvailable(a, o) => MarkAvailableStep(s, a, o)
    case RequestDelete(a) => RequestDeleteStep(s, a)
    case ClaimDeletion(a, lease) => ClaimDeletionStep(s, now, a, lease)
    case RenewDeletion(a, token, lease) => RenewDeletionStep(s, now, a, token, lease)
    case CompleteDeletion(a, token) => CompleteDeletionStep(s, now, a, token)
    case FailDeletion(a, token, next) => FailDeletionStep(s, now, a, token, next)
    case RetryDeletion(a) => RetryDeletionStep(s, now, a)
    case RequestPurge(a) => RequestPurgeStep(s, a)
    case PrepareDeletion(o) => PrepareDeletionStep(s, o)
    case CompleteTask(run, kind) => CompleteTaskStep(s, now, run, kind)
    case ProjectMedia(run, kind, failed) => ProjectMediaStep(s, now, run, kind, failed)
    case Task(inner) => TaskStep(s, now, inner)
  }
}
