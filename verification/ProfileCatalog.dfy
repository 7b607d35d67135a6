/** The protocol catalogue and its digest archive (db/profile.go, db/profile_snapshot.go): revisions are drafted,
    published, retired and deleted, while every finished task keeps the protocol it was run with.
    Content is a text that may compile to a protocol; canonicalisation is a fixpoint (each protocol has one
    canonical text, which compiles to it) and the digest is collision-free. */
module ProfileCatalog {
  import opened Wrappers
  import BindingPatterns

  type ProfileId = nat  // 0 is blank
  type TaskId = nat

  datatype Protocol = Protocol(schemaVersion: int, body: nat)

  /** A stored text: what it compiles to, if anything, and which of the many spellings it is. */
  datatype Text = Text(compiled: Option<Protocol>, spelling: nat)

  datatype Digest = NoDigest | Malformed(text: nat) | Sha256(of: Protocol)

  datatype RevisionState = Draft | Published | Retired

  datatype Content = Content(schemaVersion: int, text: Text, digest: Digest)

  datatype Revision = Revision(content: Content, state: RevisionState)

  datatype Key = Key(profile: ProfileId, number: int)

  datatype Profile = Profile(builtin: bool, latest: int)

  datatype Snapshot = Snapshot(schemaVersion: int, text: Text)

  datatype Task = Task(isProfile: bool, key: Key, digest: Digest, terminal: bool)

  type RequestId = BindingPatterns.RequestId

  /** The tables, and the binding requests whose revision has been found published but that have not come to their
      peer check yet; the ones past it are `bindings.ready`. */
  datatype State = State(
    profiles: map<ProfileId, Profile>,
    revisions: map<Key, Revision>,
    bindings: BindingPatterns.Table,
    validated: map<RequestId, BindingPatterns.Pending>,
    archive: map<Digest, Snapshot>,
    tasks: map<TaskId, Task>)

  datatype Error =
    | MissingIdentity | NotFound | AlreadyExists | RevisionConflict | PublishedImmutable | RetiredImmutable
    | BuiltinImmutable | HasBindings | HasActiveTasks | HasActiveBindings | SnapshotInvalid
    | BindingError(of: BindingPatterns.Error) | InvalidState

  // ---------------------------------------------------------------- what a task resolves to

  function CanonicalText(p: Protocol): Text { Text(Some(p), 0) }

  function CanonicalSnapshot(p: Protocol): Snapshot { Snapshot(p.schemaVersion, CanonicalText(p)) }

  /** The protocol of a stored content, provided it compiles and both digests and the schema version agree. */
  function Checked(c: Content, taskDigest: Digest): Option<Protocol> {
    match c.text.compiled
    case None => None
    case Some(p) =>
      if c.digest != Sha256(p) || (taskDigest != NoDigest && taskDigest != Sha256(p)) then None
      else if c.schemaVersion != p.schemaVersion && !(p.schemaVersion == 0 && c.schemaVersion == 1) then None
      else Some(p)
  }

  function FromArchive(archive: map<Digest, Snapshot>, digest: Digest): Option<Protocol> {
    if digest == NoDigest || digest !in archive then None
    else
      var snap := archive[digest];
      match Checked(Content(snap.schemaVersion, snap.text, digest), digest)
      case None => None
      case Some(p) => if CanonicalSnapshot(p) == snap then Some(p) else None
  }

  /** The protocol a task is bound to: its catalogue revision while that exists, else the digest archive. */
  function Resolve(s: State, t: Task): Option<Protocol> {
    if !t.isProfile || t.digest.Malformed? then None
    else if t.key.profile != 0 && t.key.number > 0 && t.key in s.revisions then
      var r := s.revisions[t.key];
      if r.state == Draft then None else Checked(r.content, t.digest)
    else FromArchive(s.archive, t.digest)
  }

  /** A captured digest admits only its own protocol, whatever has happened to catalogue and archive. */
  lemma {:induction false} CapturedDigestDecides(s: State, t: Task, p: Protocol)
    requires t.digest == Sha256(p)
    ensures Resolve(s, t) == None || Resolve(s, t) == Some(p)
  {
  }

  // ---------------------------------------------------------------- catalogue steps

  /** The numbers of a profile's revisions. */
  function Numbers(revisions: map<Key, Revision>, profile: ProfileId): set<int> {
    set k | k in revisions && k.profile == profile :: k.number
  }

  lemma {:induction false} SomeMember(ns: set<int>)
    ensures ns == {} || exists n :: n in ns
  {
    if !exists n :: n in ns { assert ns == {}; }
  }

  lemma {:induction false} MaxExists(ns: set<int>)
    requires ns != {}
    ensures exists m :: m in ns && forall n :: n in ns ==> n <= m
  {
    SomeMember(ns);
    var x :| x in ns;
    var rest := ns - {x};
    if rest == {} {
      assert forall n :: n in ns ==> n in rest || n == x;
    } else {
      MaxExists(rest);
      var m :| m in rest && forall n :: n in rest ==> n <= m;
      assert forall n :: n in ns ==> n in rest || n == x;
      assert (if x > m then x else m) in ns;
    }
  }

  /** COALESCE(MAX(revision), 0). */
  function MaxNumber(revisions: map<Key, Revision>, profile: ProfileId): (m: int)
    ensures var ns := Numbers(revisions, profile);
      if ns == {} then m == 0 else m in ns && forall n :: n in ns ==> n <= m
  {
    var ns := Numbers(revisions, profile);
    if ns == {} then 0
    else
      MaxExists(ns);
      var m :| m in ns && forall n :: n in ns ==> n <= m;
      m
  }

  function Bigger(a: int, b: int): int { if a < b then b else a }

  function CreateProfileStep(s: State, id: ProfileId, builtin: bool): (State, Option<Error>) {
    if id == 0 then (s, Some(MissingIdentity))
    else if id in s.profiles then (s, Some(AlreadyExists))
    else (s.(profiles := s.profiles[id := Profile(builtin, 0)]), None)
  }

  /** Inserts a draft; a non-positive number asks for the next free one. */
  function CreateRevisionStep(s: State, key: Key, content: Content): (State, Option<Error>) {
    if key.profile == 0 then (s, Some(MissingIdentity))
    else if key.profile !in s.profiles then (s, Some(NotFound))
    else
      var profile := s.profiles[key.profile];
      var latest :=
        if key.number <= 0 then Bigger(profile.latest, MaxNumber(s.revisions, key.profile)) + 1
        else Bigger(profile.latest, key.number);
      var k := Key(key.profile, if key.number <= 0 then latest else key.number);
      if k in s.revisions then (s, Some(RevisionConflict))
      else (s.(profiles := s.profiles[key.profile := profile.(latest := latest)],
               revisions := s.revisions[k := Revision(content, Draft)]), None)
  }

  /** Writes a revision in any state, but only over nothing or over a draft. */
  function SaveRevisionStep(s: State, key: Key, r: Revision): (State, Option<Error>) {
    if key.profile == 0 || key.number <= 0 then (s, Some(MissingIdentity))
    else if key.profile !in s.profiles then (s, Some(NotFound))
    else if key in s.revisions && s.revisions[key].state == Published then (s, Some(PublishedImmutable))
    else if key in s.revisions && s.revisions[key].state == Retired then (s, Some(RetiredImmutable))
    else
      var profile := s.profiles[key.profile];
      (s.(revisions := s.revisions[key := r],
          profiles := s.profiles[key.profile := profile.(latest := Bigger(profile.latest, key.number))]), None)
  }

  function PublishStep(s: State, key: Key): (State, Option<Error>) {
    if key !in s.revisions then (s, Some(NotFound))
    else if s.revisions[key].state == Published then (s, None)
    else if key.profile !in s.profiles then (s, Some(NotFound))
    else
      var profile := s.profiles[key.profile];
      var latest := if key.number >= profile.latest || profile.latest <= 0 then key.number else profile.latest;
      (s.(revisions := s.revisions[key := s.revisions[key].(state := Published)],
          profiles := s.profiles[key.profile := profile.(latest := latest)]), None)
  }

  predicate BoundTo(b: BindingPatterns.Binding, key: Key) { b.profile == key.profile && b.revision == key.number }

  predicate HasEnabledBinding(s: State, key: Key) {
    exists id :: id in s.bindings.bindings && BoundTo(s.bindings.bindings[id], key) && s.bindings.bindings[id].enabled
  }

  predicate HasBinding(s: State, key: Key) {
    exists id :: id in s.bindings.bindings && BoundTo(s.bindings.bindings[id], key)
  }

  function RetireStep(s: State, key: Key): (State, Option<Error>) {
    if key.profile == 0 || key.number <= 0 then (s, Some(MissingIdentity))
    else if key !in s.revisions then (s, Some(NotFound))
    else if s.revisions[key].state == Retired then (s, None)
    else if s.revisions[key].state != Published then (s, Some(NotFound))
    else if HasEnabledBinding(s, key) then (s, Some(HasActiveBindings))
    else (s.(revisions := s.revisions[key := s.revisions[key].(state := Retired)]), None)
  }

  // ---------------------------------------------------------------- deletion and the archive

  /** Which tasks a deletion is about: those of one revision, or (number 0) of the whole profile. */
  predicate Refers(t: Task, profile: ProfileId, number: int) {
    t.key.profile == profile && (number == 0 || t.key.number == number)
  }

  predicate MustArchive(t: Task, profile: ProfileId, number: int) { t.isProfile && Refers(t, profile, number) }

  /** The protocol of a revision that may be archived. */
  function Archivable(s: State, key: Key): Option<Protocol> {
    if key !in s.revisions || s.revisions[key].state == Draft then None else Checked(s.revisions[key].content, NoDigest)
  }

  /** What the archiving loop checks for one task. */
  predicate TaskArchives(s: State, t: Task) {
    match Archivable(s, t.key)
    case None => false
    case Some(p) =>
      && (t.digest == NoDigest || t.digest == Sha256(p))
      && (Sha256(p) in s.archive ==> s.archive[Sha256(p)] == CanonicalSnapshot(p))
  }

  predicate Archives(s: State, profile: ProfileId, number: int) {
    forall id :: id in s.tasks && MustArchive(s.tasks[id], profile, number) ==> TaskArchives(s, s.tasks[id])
  }

  function Filled(s: State, t: Task): Task {
    match Archivable(s, t.key)
    case None => t
    case Some(p) => if t.digest == NoDigest then t.(digest := Sha256(p)) else t
  }

  function ArchivedDigests(s: State, profile: ProfileId, number: int): set<Digest> {
    set id | id in s.tasks && MustArchive(s.tasks[id], profile, number) && Archivable(s, s.tasks[id].key).Some?
      :: Sha256(Archivable(s, s.tasks[id].key).value)
  }

  function ArchiveAfter(s: State, profile: ProfileId, number: int): map<Digest, Snapshot> {
    map d: Digest | d in s.archive.Keys + ArchivedDigests(s, profile, number) ::
      if d in s.archive then s.archive[d] else if d.Sha256? then CanonicalSnapshot(d.of) else Snapshot(0, Text(None, 0))
  }

  /** A task after the deletion has filled its digest and cut it loose from the catalogue. */
  function Detached(s: State, t: Task, profile: ProfileId, number: int): Task {
    if !Refers(t, profile, number) then t
    else (if t.isProfile then Filled(s, t) else t).(key := Key(0, 0))
  }

  function DetachAll(s: State, profile: ProfileId, number: int): State {
    s.(archive := ArchiveAfter(s, profile, number),
       tasks := map id | id in s.tasks :: Detached(s, s.tasks[id], profile, number))
  }

  predicate HasActiveTask(s: State, profile: ProfileId, number: int) {
    exists id :: id in s.tasks && Refers(s.tasks[id], profile, number) && !s.tasks[id].terminal
  }

  function DeleteRevisionStep(s: State, key: Key): (State, Option<Error>) {
    if key.profile == 0 || key.number <= 0 then (s, Some(MissingIdentity))
    else if key.profile !in s.profiles || key !in s.revisions then (s, Some(NotFound))
    else if s.profiles[key.profile].builtin then (s, Some(BuiltinImmutable))
    else if HasBinding(s, key) then (s, Some(HasBindings))
    else if HasActiveTask(s, key.profile, key.number) then (s, Some(HasActiveTasks))
    else if !Archives(s, key.profile, key.number) then (s, Some(SnapshotInvalid))
    else
      var d := DetachAll(s, key.profile, key.number);
      var left := s.revisions - {key};
      (d.(revisions := left,
          profiles := s.profiles[key.profile := s.profiles[key.profile].(latest := MaxNumber(left, key.profile))]), None)
  }

  predicate ProfileHasBinding(s: State, profile: ProfileId) {
    exists id :: id in s.bindings.bindings && s.bindings.bindings[id].profile == profile
  }

  function DeleteProfileStep(s: State, profile: ProfileId): (State, Option<Error>) {
    if profile == 0 then (s, Some(MissingIdentity))
    else if profile !in s.profiles then (s, Some(NotFound))
    else if s.profiles[profile].builtin then (s, Some(BuiltinImmutable))
    else if ProfileHasBinding(s, profile) then (s, Some(HasBindings))
    else if HasActiveTask(s, profile, 0) then (s, Some(HasActiveTasks))
    else if !Archives(s, profile, 0) then (s, Some(SnapshotInvalid))
    else
      var d := DetachAll(s, profile, 0);
      (d.(revisions := map k | k in s.revisions && k.profile != profile :: s.revisions[k],
          profiles := s.profiles - {profile}), None)
  }

  // ---------------------------------------------------------------- bindings and tasks

  /** The handlers' check of a requested binding: its revision is published when they look. */
  function ValidateStep(s: State, request: RequestId, p: BindingPatterns.Pending): (State, Option<Error>) {
    if p.binding.profile == 0 || p.binding.revision <= 0 then (s, Some(MissingIdentity))
    else
      var key := Key(p.binding.profile, p.binding.revision);
      if p.binding.profile !in s.profiles || key !in s.revisions then (s, Some(NotFound))
      else if s.revisions[key].state != Published then (s, Some(InvalidState))
      else (s.(validated := s.validated[request := p]), None)
  }

  /** Hands a validated request to the binding table; it leaves `validated` whether or not the table takes it. */
  function PassOn(s: State, request: RequestId, op: BindingPatterns.Op): (State, Option<Error>)
    requires request in s.validated
  {
    var p := s.validated[request];
    var refusal := BindingPatterns.Refusal(s.bindings.bindings, p.id, p.binding);
    (s.(validated := s.validated - {request}, bindings := BindingPatterns.Apply(s.bindings, op)),
     if refusal.Some? then Some(BindingError(refusal.value)) else None)
  }

  /** The peer check of the save, a statement of its own. */
  function CheckPeersStep(s: State, request: RequestId): (State, Option<Error>) {
    if request !in s.validated then (s, Some(NotFound))
    else
      var p := s.validated[request];
      PassOn(s, request, BindingPatterns.CheckPeers(request, p.id, p.binding))
  }

  /** The write of the save, which looks neither at peers nor at revisions. */
  function WriteBindingStep(s: State, request: RequestId): (State, Option<Error>) {
    if request !in s.bindings.ready then (s, Some(NotFound))
    else (s.(bindings := BindingPatterns.Apply(s.bindings, BindingPatterns.Write(request))), None)
  }

  /** Peer check and write inside one transaction, as when a profile is applied to a channel. */
  function SaveBindingStep(s: State, request: RequestId): (State, Option<Error>) {
    if request !in s.validated then (s, Some(NotFound))
    else PassOn(s, request, BindingPatterns.Save(s.validated[request].id, s.validated[request].binding))
  }

  function ToggleStep(s: State, id: BindingPatterns.BindingId, enabled: bool): (State, Option<Error>) {
    if id == 0 then (s, Some(MissingIdentity))
    else if id !in s.bindings.bindings then (s, Some(NotFound))
    else
      var b := s.bindings.bindings[id];
      var key := Key(b.profile, b.revision);
      if b.enabled == enabled then (s, None)
      else if enabled && !(key in s.revisions && s.revisions[key].state == Published) then (s, Some(RetiredImmutable))
      else (s.(bindings := BindingPatterns.Apply(s.bindings, BindingPatterns.SetEnabled(id, enabled))), None)
  }

  function DeleteBindingStep(s: State, id: BindingPatterns.BindingId): (State, Option<Error>) {
    if id !in s.bindings.bindings then (s, Some(NotFound))
    else (s.(bindings := BindingPatterns.Apply(s.bindings, BindingPatterns.Delete(id))), None)
  }

  function CreateTaskStep(s: State, id: TaskId, t: Task): (State, Option<Error>) {
    if id in s.tasks then (s, Some(AlreadyExists)) else (s.(tasks := s.tasks[id := t]), None)
  }

  /** A status write; the capture fields stay. */
  function SetTerminalStep(s: State, id: TaskId, terminal: bool): (State, Option<Error>) {
    if id !in s.tasks then (s, Some(NotFound))
    else (s.(tasks := s.tasks[id := s.tasks[id].(terminal := terminal)]), None)
  }

  /** Accepting a submission rewrites what a reserved task has captured. */
  function ProjectTaskStep(s: State, id: TaskId, t: Task): (State, Option<Error>) {
    if id !in s.tasks then (s, Some(NotFound)) else (s.(tasks := s.tasks[id := t]), None)
  }

  datatype Op =
    | CreateProfile(id: ProfileId, builtin: bool)
    | CreateRevision(key: Key, content: Content)
    | SaveRevision(key: Key, revision: Revision)
    | Publish(key: Key)
    | Retire(key: Key)
    | DeleteRevision(key: Key)
    | DeleteProfile(id: ProfileId)
    | Validate(request: RequestId, pending: BindingPatterns.Pending)
    | CheckPeers(request: RequestId)
    | WriteBinding(request: RequestId)
    | SaveBinding(request: RequestId)
    | Toggle(bindingId: BindingPatterns.BindingId, enabled: bool)
    | DeleteBinding(bindingId: BindingPatterns.BindingId)
    | CreateTask(taskId: TaskId, task: Task)
    | SetTerminal(taskId: TaskId, terminal: bool)
    | ProjectTask(taskId: TaskId, task: Task)

  function Step(s: State, op: Op): (State, Option<Error>) {
    match op
    case CreateProfile(id, builtin) => CreateProfileStep(s, id, builtin)
    case CreateRevision(key, content) => CreateRevisionStep(s, key, content)
    case SaveRevision(key, r) => SaveRevisionStep(s, key, r)
    case Publish(key) => PublishStep(s, key)
    case Retire(key) => RetireStep(s, key)
    case DeleteRevision(key) => DeleteRevisionStep(s, key)
    case DeleteProfile(id) => DeleteProfileStep(s, id)
    case Validate(request, p) => ValidateStep(s, request, p)
    case CheckPeers(request) => CheckPeersStep(s, request)
    case WriteBinding(request) => WriteBindingStep(s, request)
    case SaveBinding(request) => SaveBindingStep(s, request)
    case Toggle(id, enabled) => ToggleStep(s, id, enabled)
    case DeleteBinding(id) => DeleteBindingStep(s, id)
    case CreateTask(id, t) => CreateTaskStep(s, id, t)
    case SetTerminal(id, terminal) => SetTerminalStep(s, id, terminal)
    case ProjectTask(id, t) => ProjectTaskStep(s, id, t)
  }

  function Apply(s: State, op: Op): State { Step(s, op).0 }

  function Run(s: State, ops: seq<Op>): State {
    if ops == [] then s else Apply(Run(s, ops[..|ops| - 1]), ops[|ops| - 1])
  }

  // ---------------------------------------------------------------- the invariant

  /** `m` is the largest revision number of the profile, or 0 when it has none. */
  ghost predicate IsLatest(revisions: map<Key, Revision>, profile: ProfileId, m: int) {
    && (forall k :: k in revisions && k.profile == profile ==> k.number <= m)
    && (m == 0 || Key(profile, m) in revisions)
  }

  ghost predicate LatestIsMax(s: State) {
    forall p :: p in s.profiles ==> IsLatest(s.revisions, p, s.profiles[p].latest)
  }

  ghost predicate Owned(s: State) {
    forall k :: k in s.revisions ==> k.profile in s.profiles && k.profile != 0 && k.number > 0
  }

  ghost predicate ArchiveIsCanonical(s: State) {
    forall d :: d in s.archive ==> d.Sha256? && s.archive[d] == CanonicalSnapshot(d.of)
  }

  ghost predicate Inv(s: State) {
    LatestIsMax(s) && Owned(s) && ArchiveIsCanonical(s) && BindingPatterns.Numbered(s.bindings)
  }

  lemma {:induction false} MaxNumberIsLatest(revisions: map<Key, Revision>, profile: ProfileId)
    requires forall k :: k in revisions ==> k.number > 0
    ensures IsLatest(revisions, profile, MaxNumber(revisions, profile))
  {
    var ns, m := Numbers(revisions, profile), MaxNumber(revisions, profile);
    forall k | k in revisions && k.profile == profile ensures k.number <= m {
      assert k.number in ns;
    }
    if ns != {} {
      assert m in ns;
      var k :| k in revisions && k.profile == profile && k.number == m;
      assert k == Key(profile, m);
    }
  }

  lemma {:induction false} LatestIsUnique(revisions: map<Key, Revision>, profile: ProfileId, m: int, n: int)
    requires IsLatest(revisions, profile, m) && IsLatest(revisions, profile, n) && m >= 0 && n >= 0
    requires forall k :: k in revisions ==> k.number > 0
    ensures m == n
  {
  }

  lemma {:induction false} AddedIsLatest(revisions: map<Key, Revision>, key: Key, r: Revision, m: int)
    requires IsLatest(revisions, key.profile, m)
    ensures IsLatest(revisions[key := r], key.profile, Bigger(m, key.number))
  {
  }

  lemma {:induction false} LatestIsNotNegative(s: State, p: ProfileId)
    requires Owned(s) && LatestIsMax(s) && p in s.profiles
    ensures s.profiles[p].latest >= 0
  {
    assert IsLatest(s.revisions, p, s.profiles[p].latest);
  }

  /** What adding or rewriting one revision keeps. */
  lemma {:induction false} PutKeepsInv(s: State, key: Key, r: Revision)
    requires Inv(s) && key.profile in s.profiles && key.profile != 0 && key.number > 0
    ensures var profile := s.profiles[key.profile];
      Inv(s.(revisions := s.revisions[key := r],
             profiles := s.profiles[key.profile := profile.(latest := Bigger(profile.latest, key.number))]))
  {
    hide BindingPatterns.Numbered;
    var profile := s.profiles[key.profile];
    AddedIsLatest(s.revisions, key, r, profile.latest);
  }

  lemma {:induction false} CreateRevisionKeepsInv(s: State, key: Key, content: Content)
    requires Inv(s)
    ensures Inv(CreateRevisionStep(s, key, content).0)
  {
    hide BindingPatterns.Numbered, ArchiveIsCanonical, MaxNumber;
    if CreateRevisionStep(s, key, content).1.None? {
      var profile := s.profiles[key.profile];
      LatestIsNotNegative(s, key.profile);
      MaxNumberIsLatest(s.revisions, key.profile);
      MaxIsNotNegative(s, key.profile);
      LatestIsUnique(s.revisions, key.profile, profile.latest, MaxNumber(s.revisions, key.profile));
      var k := Key(key.profile, if key.number <= 0 then profile.latest + 1 else key.number);
      PutKeepsInv(s, k, Revision(content, Draft));
    }
  }

  lemma {:induction false} MaxIsNotNegative(s: State, p: ProfileId)
    requires Owned(s)
    ensures MaxNumber(s.revisions, p) >= 0
  {
    var ns := Numbers(s.revisions, p);
    assert forall n :: n in ns ==> n > 0;
  }

  lemma {:induction false} PublishKeepsInv(s: State, key: Key)
    requires Inv(s)
    ensures Inv(PublishStep(s, key).0)
  {
    hide BindingPatterns.Numbered, ArchiveIsCanonical;
    if key in s.revisions && s.revisions[key].state != Published {
      LatestIsNotNegative(s, key.profile);
      assert IsLatest(s.revisions, key.profile, s.profiles[key.profile].latest);
      PutKeepsInv(s, key, s.revisions[key].(state := Published));
    }
  }

  lemma {:induction false} RetireKeepsInv(s: State, key: Key)
    requires Inv(s)
    ensures Inv(RetireStep(s, key).0)
  {
    hide BindingPatterns.Numbered;
  }

  lemma {:induction false} DetachKeepsArchive(s: State, profile: ProfileId, number: int)
    requires ArchiveIsCanonical(s)
    ensures ArchiveIsCanonical(DetachAll(s, profile, number))
  {
  }

  lemma {:induction false} DeleteRevisionKeepsInv(s: State, key: Key)
    requires Inv(s)
    ensures Inv(DeleteRevisionStep(s, key).0)
  {
    hide BindingPatterns.Numbered, Archives, ArchiveIsCanonical, DetachAll, HasActiveTask, MaxNumber;
    DetachKeepsArchive(s, key.profile, key.number);
    DetachKeepsCatalogue(s, key.profile, key.number);
    if DeleteRevisionStep(s, key).1.None? {
      var left := s.revisions - {key};
      MaxNumberIsLatest(left, key.profile);
      ArchiveOnly(DetachAll(s, key.profile, key.number), DeleteRevisionStep(s, key).0);
      FewerKeepInv(s, DeleteRevisionStep(s, key).0);
    }
  }

  lemma {:induction false} ArchiveOnly(s: State, t: State)
    requires ArchiveIsCanonical(s) && s.archive == t.archive
    ensures ArchiveIsCanonical(t)
  {
  }

  lemma {:induction false} DetachKeepsCatalogue(s: State, profile: ProfileId, number: int)
    ensures var d := DetachAll(s, profile, number);
      d.profiles == s.profiles && d.revisions == s.revisions && d.bindings == s.bindings
  {
  }

  /** Losing revisions keeps the invariant, if the latest numbers are right. */
  lemma {:induction false} FewerKeepInv(s: State, t: State)
    requires Inv(s) && ArchiveIsCanonical(t) && t.bindings == s.bindings
    requires forall k :: k in t.revisions ==> k in s.revisions && k.profile in t.profiles
    requires forall p :: p in t.profiles ==> IsLatest(t.revisions, p, t.profiles[p].latest)
    ensures Inv(t)
  {
    hide BindingPatterns.Numbered, ArchiveIsCanonical;
  }

  lemma {:induction false} DeleteProfileKeepsInv(s: State, profile: ProfileId)
    requires Inv(s)
    ensures Inv(DeleteProfileStep(s, profile).0)
  {
    hide BindingPatterns.Numbered, Archives, ArchiveIsCanonical, DetachAll, HasActiveTask;
    DetachKeepsArchive(s, profile, 0);
    DetachKeepsCatalogue(s, profile, 0);
    if DeleteProfileStep(s, profile).1.None? {
      var t := DeleteProfileStep(s, profile).0;
      ArchiveOnly(DetachAll(s, profile, 0), t);
      forall p | p in t.profiles ensures IsLatest(t.revisions, p, t.profiles[p].latest) {
        assert IsLatest(s.revisions, p, s.profiles[p].latest);
      }
      FewerKeepInv(s, t);
    }
  }

  lemma {:induction false} BindingsKeepInv(s: State, op: BindingPatterns.Op, validated: map<RequestId, BindingPatterns.Pending>)
    requires Inv(s)
    ensures Inv(s.(bindings := BindingPatterns.Apply(s.bindings, op), validated := validated))
  {
    BindingPatterns.ApplyKeepsNumbered(s.bindings, op);
    hide BindingPatterns.Numbered, BindingPatterns.Apply;
  }

  lemma {:induction false} RequestKeepsInv(s: State, op: Op)
    requires Inv(s) && IsBindingWork(op)
    ensures Inv(Apply(s, op))
  {
    hide Inv, BindingPatterns.Apply, BindingPatterns.Refusal;
    match op
    case Validate(request, p) => ValidatedDoNotMatter(s, s.validated[request := p]);
    case CheckPeers(request) =>
      if request in s.validated {
        var p := s.validated[request];
        BindingsKeepInv(s, BindingPatterns.CheckPeers(request, p.id, p.binding), s.validated - {request});
      }
    case WriteBinding(request) => BindingsKeepInv(s, BindingPatterns.Write(request), s.validated);
    case SaveBinding(request) =>
      if request in s.validated {
        var p := s.validated[request];
        BindingsKeepInv(s, BindingPatterns.Save(p.id, p.binding), s.validated - {request});
      }
    case Toggle(id, enabled) => BindingsKeepInv(s, BindingPatterns.SetEnabled(id, enabled), s.validated);
    case DeleteBinding(id) => BindingsKeepInv(s, BindingPatterns.Delete(id), s.validated);
  }

  predicate IsBindingWork(op: Op) {
    op.Validate? || op.CheckPeers? || op.WriteBinding? || op.SaveBinding? || op.Toggle? || op.DeleteBinding?
  }

  lemma {:induction false} ValidatedDoNotMatter(s: State, validated: map<RequestId, BindingPatterns.Pending>)
    requires Inv(s)
    ensures Inv(s.(validated := validated))
  {
    hide BindingPatterns.Numbered;
  }

  lemma {:induction false} SaveRevisionKeepsInv(s: State, key: Key, r: Revision)
    requires Inv(s)
    ensures Inv(SaveRevisionStep(s, key, r).0)
  {
    hide Inv;
    if SaveRevisionStep(s, key, r).1.None? { PutKeepsInv(s, key, r); }
  }

  lemma {:induction false} CreateProfileKeepsInv(s: State, id: ProfileId, builtin: bool)
    requires Inv(s)
    ensures Inv(CreateProfileStep(s, id, builtin).0)
  {
    hide BindingPatterns.Numbered;
  }

  lemma {:induction false} TasksDoNotMatter(s: State, tasks: map<TaskId, Task>)
    requires Inv(s)
    ensures Inv(s.(tasks := tasks))
  {
    hide BindingPatterns.Numbered;
  }

  lemma {:induction false} ApplyKeepsInv(s: State, op: Op)
    requires Inv(s)
    ensures Inv(Apply(s, op))
  {
    hide Inv, CreateProfileStep, CreateRevisionStep, SaveRevisionStep, PublishStep, RetireStep, DeleteRevisionStep;
    hide DeleteProfileStep;
    if IsBindingWork(op) {
      RequestKeepsInv(s, op);
      return;
    }
    match op
    case CreateProfile(id, builtin) => CreateProfileKeepsInv(s, id, builtin);
    case CreateRevision(key, content) => CreateRevisionKeepsInv(s, key, content);
    case SaveRevision(key, r) => SaveRevisionKeepsInv(s, key, r);
    case Publish(key) => PublishKeepsInv(s, key);
    case Retire(key) => RetireKeepsInv(s, key);
    case DeleteRevision(key) => DeleteRevisionKeepsInv(s, key);
    case DeleteProfile(id) => DeleteProfileKeepsInv(s, id);
    case CreateTask(id, t) => TasksDoNotMatter(s, s.tasks[id := t]);
    case SetTerminal(id, terminal) =>
      if id in s.tasks { TasksDoNotMatter(s, s.tasks[id := s.tasks[id].(terminal := terminal)]); }
    case ProjectTask(id, t) => TasksDoNotMatter(s, s.tasks[id := t]);
  }

  /** In every reachable catalogue, over every interleaving, the latest number is the largest existing one, revisions
      belong to profiles and the archive holds only canonical copies. */
  lemma {:induction false} RunKeepsInv(s: State, ops: seq<Op>)
    requires Inv(s)
    ensures Inv(Run(s, ops))
  {
    hide Inv, Apply;
    if ops == [] {
    } else {
      RunKeepsInv(s, ops[..|ops| - 1]);
      ApplyKeepsInv(Run(s, ops[..|ops| - 1]), ops[|ops| - 1]);
    }
  }

  // ---------------------------------------------------------------- enabled bindings and published revisions

  ghost predicate EnabledArePublished(s: State) {
    forall id :: id in s.bindings.bindings && s.bindings.bindings[id].enabled ==>
      ServesPublished(s.revisions, s.bindings.bindings[id])
  }

  predicate ServesPublished(revisions: map<Key, Revision>, b: BindingPatterns.Binding) {
    var key := Key(b.profile, b.revision); key in revisions && revisions[key].state == Published
  }

  /** The table write alone, without the handlers' check, keeps enabled bindings on published revisions exactly
      when the binding is disabled or its revision is published at that moment. */
  lemma {:induction false} RawSaveIsSafeExactlyWhenPublished(s: State, p: BindingPatterns.Pending)
    requires EnabledArePublished(s)
    ensures EnabledArePublished(s.(bindings := BindingPatterns.Put(s.bindings, p)))
            <==> (p.binding.enabled ==> ServesPublished(s.revisions, p.binding))
  {
    hide ServesPublished;
    var after := BindingPatterns.Put(s.bindings, p).bindings;
    var row := BindingPatterns.RowOf(s.bindings, p.id);
    assert row in after && after[row] == p.binding;
  }

  /** What the step writes to the binding table, if it writes a request. */
  function Written(s: State, op: Op): Option<BindingPatterns.Pending> {
    match op
    case WriteBinding(request) => if request in s.bindings.ready then Some(s.bindings.ready[request]) else None
    case SaveBinding(request) =>
      if request in s.validated
         && BindingPatterns.Refusal(s.bindings.bindings, s.validated[request].id, s.validated[request].binding).None?
      then Some(s.validated[request]) else None
    case _ => None
  }

  /** If the step writes an enabled binding, its revision is published at that moment. */
  predicate WritesPublished(s: State, op: Op) {
    var w := Written(s, op);
    w.Some? && w.value.binding.enabled ==> ServesPublished(s.revisions, w.value.binding)
  }

  lemma {:induction false} WriteEffect(s: State, op: Op)
    ensures op.WriteBinding? || op.SaveBinding? ==>
      Apply(s, op).revisions == s.revisions &&
      Apply(s, op).bindings.bindings ==
        (match Written(s, op) case Some(p) => BindingPatterns.Put(s.bindings, p).bindings case None => s.bindings.bindings)
  {
    hide BindingPatterns.Refusal;
  }

  lemma {:induction false} SameTables(s: State, t: State)
    requires t.revisions == s.revisions && t.bindings.bindings == s.bindings.bindings
    ensures EnabledArePublished(t) == EnabledArePublished(s)
  {
  }

  /** Rows that only lose, disable or enable onto published revisions. */
  lemma {:induction false} RowStepsKeepPublished(s: State, op: Op)
    requires EnabledArePublished(s) && IsBindingWork(op) && !op.WriteBinding? && !op.SaveBinding?
    ensures EnabledArePublished(Apply(s, op))
  {
    hide BindingPatterns.Refusal;
  }

  lemma {:induction false} RevisionStepsKeepPublished(s: State, op: Op)
    requires EnabledArePublished(s) && !IsBindingWork(op)
    ensures EnabledArePublished(Apply(s, op))
  {
    hide EnabledArePublished, Apply;
    BindingsUntouched(s, op);
    forall id | id in s.bindings.bindings && s.bindings.bindings[id].enabled
      ensures ServesPublished(Apply(s, op).revisions, s.bindings.bindings[id])
    {
      BoundStaysPublished(s, op, id);
    }
    PublishedAll(Apply(s, op));
  }

  lemma {:induction false} PublishedAll(s: State)
    requires forall id :: id in s.bindings.bindings && s.bindings.bindings[id].enabled ==>
               ServesPublished(s.revisions, s.bindings.bindings[id])
    ensures EnabledArePublished(s)
  {
  }

  lemma {:induction false} BindingsUntouched(s: State, op: Op)
    requires !IsBindingWork(op)
    ensures Apply(s, op).bindings == s.bindings && Apply(s, op).validated == s.validated
  {
    hide HasBinding, HasActiveTask, Archives, HasEnabledBinding, MaxNumber, ProfileHasBinding, ArchiveAfter, Detached;
  }

  /** Retiring and deleting look for bindings first, and no other step takes a revision out of publication. */
  lemma {:induction false} BoundStaysPublished(s: State, op: Op, id: BindingPatterns.BindingId)
    requires EnabledArePublished(s) && !IsBindingWork(op)
    requires id in s.bindings.bindings && s.bindings.bindings[id].enabled
    ensures ServesPublished(Apply(s, op).revisions, s.bindings.bindings[id])
  {
    var b := s.bindings.bindings[id];
    assert ServesPublished(s.revisions, b) && BoundTo(b, Key(b.profile, b.revision));
    hide HasActiveTask, Archives, MaxNumber, ArchiveAfter, Detached, EnabledArePublished;
  }

  lemma {:induction false} StepIsSafeExactlyWhenPublished(s: State, op: Op)
    requires EnabledArePublished(s)
    ensures EnabledArePublished(Apply(s, op)) <==> WritesPublished(s, op)
  {
    hide EnabledArePublished, Apply, ServesPublished, BindingPatterns.Put, BindingPatterns.Refusal;
    if op.WriteBinding? || op.SaveBinding? {
      WriteEffect(s, op);
      match Written(s, op)
      case Some(p) =>
        RawSaveIsSafeExactlyWhenPublished(s, p);
        SameTables(s.(bindings := BindingPatterns.Put(s.bindings, p)), Apply(s, op));
      case None => SameTables(s, Apply(s, op));
    } else if IsBindingWork(op) {
      RowStepsKeepPublished(s, op);
    } else {
      RevisionStepsKeepPublished(s, op);
    }
  }

  ghost predicate AlwaysPublished(s: State, ops: seq<Op>) {
    forall n :: 0 <= n <= |ops| ==> EnabledArePublished(Run(s, ops[..n]))
  }

  ghost predicate EveryWritePublished(s: State, ops: seq<Op>) {
    forall i :: 0 <= i < |ops| ==> WritesPublished(Run(s, ops[..i]), ops[i])
  }

  lemma {:induction false} RunLast(s: State, front: seq<Op>, op: Op)
    ensures Run(s, front + [op]) == Apply(Run(s, front), op)
  {
    hide Apply;
    assert (front + [op])[..|front|] == front;
  }

  lemma {:induction false} RunsSplit(s: State, front: seq<Op>, op: Op)
    ensures AlwaysPublished(s, front + [op]) <==>
            AlwaysPublished(s, front) && EnabledArePublished(Apply(Run(s, front), op))
    ensures EveryWritePublished(s, front + [op]) <==> EveryWritePublished(s, front) && WritesPublished(Run(s, front), op)
  {
    hide Run, Apply, WritesPublished, EnabledArePublished;
    var ops := front + [op];
    assert forall n :: 0 <= n <= |front| ==> ops[..n] == front[..n];
    assert ops[..|front|] == front[..|front|] == front && ops[..|ops|] == ops && ops[|front|] == op;
    RunLast(s, front, op);
    forall i | 0 <= i < |front|
      ensures WritesPublished(Run(s, ops[..i]), ops[i]) <==> WritesPublished(Run(s, front[..i]), front[i])
    {
      assert ops[..i] == front[..i] && ops[i] == front[i];
    }
  }

  /** Over any interleaving of requests, publications, retirements and deletions, at every moment every enabled binding
      points at an existing published revision, exactly when each write of an enabled binding finds its revision
      still published. */
  lemma {:induction false} EnabledStayPublishedExactlyWhenWritesAre(s: State, ops: seq<Op>)
    requires EnabledArePublished(s)
    ensures AlwaysPublished(s, ops) <==> EveryWritePublished(s, ops)
  {
    hide Apply, WritesPublished, EnabledArePublished;
    if ops == [] {
    } else {
      var front, op := ops[..|ops| - 1], ops[|ops| - 1];
      assert ops == front + [op] && front[..|front|] == front;
      EnabledStayPublishedExactlyWhenWritesAre(s, front);
      RunsSplit(s, front, op);
      if AlwaysPublished(s, front) {
        assert EnabledArePublished(Run(s, front[..|front|]));
        StepIsSafeExactlyWhenPublished(Run(s, front), op);
      }
    }
  }

  /** The step retires or deletes no revision that an enabled request in flight has been checked against. */
  predicate Spares(s: State, op: Op) {
    match op
    case Retire(key) => !Awaited(s, key.profile, key.number)
    case DeleteRevision(key) => !Awaited(s, key.profile, key.number)
    case DeleteProfile(profile) => !Awaited(s, profile, 0)
    case _ => true
  }

  /** Some enabled request in flight names the revision, or any revision of the profile when the number is 0. */
  predicate Awaited(s: State, profile: ProfileId, number: int) {
    || (exists r :: r in s.validated && Names(s.validated[r], profile, number))
    || (exists r :: r in s.bindings.ready && Names(s.bindings.ready[r], profile, number))
  }

  predicate Names(p: BindingPatterns.Pending, profile: ProfileId, number: int) {
    p.binding.enabled && p.binding.profile == profile && (number == 0 || p.binding.revision == number)
  }

  /** Every enabled request in flight is for a revision that is still published. */
  ghost predicate RequestsCurrent(s: State) {
    && (forall r :: r in s.validated ==> Current(s, s.validated[r]))
    && (forall r :: r in s.bindings.ready ==> Current(s, s.bindings.ready[r]))
  }

  predicate Current(s: State, p: BindingPatterns.Pending) { p.binding.enabled ==> ServesPublished(s.revisions, p.binding) }

  lemma {:induction false} SparedStaysPublished(s: State, op: Op, p: BindingPatterns.Pending)
    requires Spares(s, op) && !IsBindingWork(op) && Current(s, p)
    requires (exists r :: r in s.validated && s.validated[r] == p) || (exists r :: r in s.bindings.ready && s.bindings.ready[r] == p)
    ensures Current(Apply(s, op), p)
  {
    hide HasActiveTask, Archives, MaxNumber, ArchiveAfter, Detached, HasBinding, HasEnabledBinding, ProfileHasBinding;
  }

  lemma {:induction false} SparingKeepsRequestsCurrent(s: State, op: Op)
    requires RequestsCurrent(s) && Spares(s, op)
    ensures RequestsCurrent(Apply(s, op)) && WritesPublished(s, op)
  {
    if IsBindingWork(op) {
      hide BindingPatterns.Refusal;
    } else {
      hide Apply, Spares, Current;
      BindingsUntouched(s, op);
      forall r | r in s.validated ensures Current(Apply(s, op), s.validated[r]) {
        SparedStaysPublished(s, op, s.validated[r]);
      }
      forall r | r in s.bindings.ready ensures Current(Apply(s, op), s.bindings.ready[r]) {
        SparedStaysPublished(s, op, s.bindings.ready[r]);
      }
    }
  }

  /** When nothing retires or deletes a revision between a request's check and its write, in particular when requests
      and retirements run one at a time, every write finds its revision published. */
  lemma {:induction false} SparingRunsStayPublished(s: State, ops: seq<Op>)
    requires RequestsCurrent(s) && forall i :: 0 <= i < |ops| ==> Spares(Run(s, ops[..i]), ops[i])
    ensures EveryWritePublished(s, ops) && RequestsCurrent(Run(s, ops))
  {
    hide Apply, RequestsCurrent, Spares, WritesPublished;
    if ops == [] {
    } else {
      var front, op := ops[..|ops| - 1], ops[|ops| - 1];
      assert ops == front + [op];
      forall i | 0 <= i < |front| ensures Spares(Run(s, front[..i]), front[i]) {
        assert front[..i] == ops[..i] && front[i] == ops[i];
      }
      SparingRunsStayPublished(s, front);
      SparingKeepsRequestsCurrent(Run(s, front), op);
      RunsSplit(s, front, op);
    }
  }

  /** A catalogue with one published revision, and a request that is overtaken by its retirement. */
  function OnePublished(): State {
    State(map[1 := Profile(false, 1)], map[Key(1, 1) := Revision(Content(0, Text(None, 0), NoDigest), Published)],
          BindingPatterns.EMPTY_TABLE, map[], map[], map[])
  }

  function OvertakenRequest(): seq<Op> {
    [Validate(1, BindingPatterns.Pending(0, BindingPatterns.Binding(1, 1, "*", 1, 1, 0, true))), CheckPeers(1),
     Retire(Key(1, 1)), WriteBinding(1)]
  }

  /** The handlers' check does not protect the write: the binding is saved enabled on a retired revision. */
  lemma {:induction false} RetirementOvertakesRequest()
    ensures Inv(OnePublished()) && EnabledArePublished(OnePublished()) && RequestsCurrent(OnePublished())
    ensures !EnabledArePublished(Run(OnePublished(), OvertakenRequest()))
  {
    var s, ops := OnePublished(), OvertakenRequest();
    var p := ops[0].pending;
    var s1 := s.(validated := map[1 := p]);
    assert Apply(s, ops[0]) == s1;
    var s2 := s.(bindings := BindingPatterns.EMPTY_TABLE.(ready := map[1 := p]));
    assert Apply(s1, ops[1]) == s2;
    var s3 := s2.(revisions := map[Key(1, 1) := s.revisions[Key(1, 1)].(state := Retired)]);
    assert Apply(s2, ops[2]) == s3;
    var s4 := Apply(s3, ops[3]);
    assert 1 in s4.bindings.bindings && s4.bindings.bindings[1] == p.binding;
    assert !ServesPublished(s4.revisions, p.binding);
    RunLast(s, [], ops[0]);
    RunLast(s, [ops[0]], ops[1]);
    RunLast(s, [ops[0], ops[1]], ops[2]);
    RunLast(s, [ops[0], ops[1], ops[2]], ops[3]);
    assert [] + [ops[0]] == [ops[0]] && [ops[0]] + [ops[1]] == [ops[0], ops[1]];
    assert [ops[0], ops[1]] + [ops[2]] == [ops[0], ops[1], ops[2]] && [ops[0], ops[1], ops[2]] + [ops[3]] == ops;
  }

  // ---------------------------------------------------------------- content is immutable

  predicate Frozen(r: Revision) { r.state != Draft }

  /** A published or retired revision keeps its content and never becomes a draft again, in any one step that does
      not delete it. */
  lemma {:induction false} StepKeepsFrozen(s: State, op: Op, key: Key)
    requires key in s.revisions && Frozen(s.revisions[key])
    ensures key in Apply(s, op).revisions ==>
      Apply(s, op).revisions[key].content == s.revisions[key].content && Frozen(Apply(s, op).revisions[key])
    ensures !op.DeleteRevision? && !op.DeleteProfile? ==> key in Apply(s, op).revisions
  {
    hide HasBinding, HasActiveTask, Archives, HasEnabledBinding, MaxNumber, ProfileHasBinding, ArchiveAfter, Detached;
    hide BindingPatterns.Refusal, BindingPatterns.Apply;
  }

  ghost predicate Throughout(s: State, ops: seq<Op>, key: Key) {
    forall n :: 0 <= n <= |ops| ==> key in Run(s, ops[..n]).revisions
  }

  /** While a published or retired revision exists, nothing changes its content or makes it a draft. */
  lemma {:induction false} ContentIsImmutable(s: State, ops: seq<Op>, key: Key)
    requires Throughout(s, ops, key) && key in s.revisions && Frozen(s.revisions[key])
    ensures key in Run(s, ops).revisions
    ensures Run(s, ops).revisions[key].content == s.revisions[key].content && Frozen(Run(s, ops).revisions[key])
  {
    hide Apply;
    if ops == [] {
    } else {
      var front := ops[..|ops| - 1];
      forall n | 0 <= n <= |front| ensures key in Run(s, front[..n]).revisions {
        assert front[..n] == ops[..n];
      }
      ContentIsImmutable(s, front, key);
      StepKeepsFrozen(Run(s, front), ops[|ops| - 1], key);
      assert ops[..|ops|] == ops;
    }
  }

  // ---------------------------------------------------------------- history keeps its meaning

  /** The task does not wait for a revision that is not there. */
  predicate Anchored(s: State, t: Task) { t.key.profile == 0 || t.key.number <= 0 || t.key in s.revisions }

  predicate StillResolves(s: State, id: TaskId, p: Protocol) {
    id in s.tasks && Resolve(s, s.tasks[id]) == Some(p)
  }

  predicate ResolvesTo(s: State, id: TaskId, p: Protocol) {
    StillResolves(s, id, p) && Anchored(s, s.tasks[id])
  }

  lemma {:induction false} ArchivedProtocol(s: State, t: Task, profile: ProfileId, number: int, id: TaskId, p: Protocol)
    requires ArchiveIsCanonical(s) && Archives(s, profile, number)
    requires id in s.tasks && t == s.tasks[id] && MustArchive(t, profile, number)
    requires profile != 0 && t.key.number > 0 && t.key in s.revisions && Resolve(s, t) == Some(p)
    ensures Filled(s, t).digest == Sha256(p) && Filled(s, t).isProfile
    ensures FromArchive(ArchiveAfter(s, profile, number), Sha256(p)) == Some(p)
  {
    assert TaskArchives(s, t);
    assert Archivable(s, t.key) == Some(p);
    assert Sha256(p) in ArchivedDigests(s, profile, number);
  }

  lemma {:induction false} ArchiveGrows(s: State, profile: ProfileId, number: int)
    ensures var a := ArchiveAfter(s, profile, number); forall d :: d in s.archive ==> d in a && a[d] == s.archive[d]
  {
  }

  /** Detaching the tasks of a revision or a profile changes where their protocol is read from, not what it is. */
  lemma {:induction false} DetachPreserves(s: State, t: State, profile: ProfileId, number: int, id: TaskId, p: Protocol)
    requires Inv(s) && Archives(s, profile, number) && profile != 0 && number >= 0 && StillResolves(s, id, p)
    requires t.tasks == DetachAll(s, profile, number).tasks && t.archive == ArchiveAfter(s, profile, number)
    requires forall k :: k in s.revisions && !(k.profile == profile && (number == 0 || k.number == number)) ==>
               k in t.revisions && t.revisions[k] == s.revisions[k]
    requires forall k :: k in t.revisions ==> k in s.revisions
    ensures StillResolves(t, id, p) && (Anchored(s, s.tasks[id]) ==> Anchored(t, t.tasks[id]))
  {
    hide BindingPatterns.Numbered, LatestIsMax, ArchiveAfter, Filled, Archivable;
    var before := s.tasks[id];
    if Refers(before, profile, number) {
      hide FromArchive;
      RefersIsAttached(s, before, profile, number);
      ArchivedProtocol(s, before, profile, number, id, p);
    } else {
      ArchiveGrows(s, profile, number);
    }
  }

  lemma {:induction false} RefersIsAttached(s: State, t: Task, profile: ProfileId, number: int)
    requires Owned(s) && Archives(s, profile, number) && Refers(t, profile, number) && t in s.tasks.Values && t.isProfile
    ensures t.key in s.revisions && t.key.number > 0
  {
    var id :| id in s.tasks && s.tasks[id] == t;
    assert MustArchive(s.tasks[id], profile, number);
    assert TaskArchives(s, t);
  }

  /** Deleting a revision or a whole profile preserves the meaning of every task: whatever resolved before, attached
      or detached, resolves afterwards to the same protocol. */
  lemma {:induction false} DeletionPreserves(s: State, op: Op, id: TaskId, p: Protocol)
    requires Inv(s) && StillResolves(s, id, p) && (op.DeleteRevision? || op.DeleteProfile?)
    ensures StillResolves(Apply(s, op), id, p)
    ensures Anchored(s, s.tasks[id]) ==> Anchored(Apply(s, op), Apply(s, op).tasks[id])
  {
    hide Inv, Archives, HasActiveTask, HasBinding, ProfileHasBinding, Resolve, ArchiveAfter, Detached, MaxNumber;
    if Step(s, op).1.None? {
      match op
      case DeleteRevision(key) => DetachPreserves(s, Apply(s, op), key.profile, key.number, id, p);
      case DeleteProfile(profile) => DetachPreserves(s, Apply(s, op), profile, 0, id, p);
    }
  }

  lemma {:induction false} FrozenPreserves(s: State, t: State, id: TaskId, p: Protocol)
    requires ResolvesTo(s, id, p) && t.archive == s.archive && id in t.tasks
    requires t.tasks[id] == s.tasks[id].(terminal := t.tasks[id].terminal)
    requires s.tasks[id].key in s.revisions && Frozen(s.revisions[s.tasks[id].key]) ==>
      var k := s.tasks[id].key;
      k in t.revisions && t.revisions[k].content == s.revisions[k].content && Frozen(t.revisions[k])
    requires Owned(t) && Owned(s)
    ensures ResolvesTo(t, id, p)
  {
  }

  /** One step other than re-projecting the task itself. */
  lemma {:induction false} StepPreserves(s: State, op: Op, id: TaskId, p: Protocol)
    requires Inv(s) && ResolvesTo(s, id, p) && !(op.ProjectTask? && op.taskId == id)
    ensures ResolvesTo(Apply(s, op), id, p)
  {
    if op.DeleteRevision? || op.DeleteProfile? {
      DeletionPreserves(s, op, id, p);
    } else {
      hide Resolve, Frozen, Apply;
      InvOwned(s);
      ApplyKeepsInv(s, op);
      InvOwned(Apply(s, op));
      hide Inv;
      var k := s.tasks[id].key;
      if k in s.revisions && Frozen(s.revisions[k]) { StepKeepsFrozen(s, op, k); }
      StepLeavesTask(s, op, id);
      FrozenPreserves(s, Apply(s, op), id, p);
    }
  }

  lemma {:induction false} InvOwned(s: State)
    requires Inv(s)
    ensures Owned(s)
  {
  }

  lemma {:induction false} StepLeavesTask(s: State, op: Op, id: TaskId)
    requires id in s.tasks && !(op.ProjectTask? && op.taskId == id) && !op.DeleteRevision? && !op.DeleteProfile?
    ensures var t := Apply(s, op);
      id in t.tasks && t.archive == s.archive && t.tasks[id] == s.tasks[id].(terminal := t.tasks[id].terminal)
  {
    hide HasEnabledBinding, MaxNumber, BindingPatterns.Refusal, BindingPatterns.Apply;
  }

  ghost predicate Unprojected(ops: seq<Op>, id: TaskId) {
    forall i :: 0 <= i < |ops| ==> !(ops[i].ProjectTask? && ops[i].taskId == id)
  }

  /** Whatever is created, edited, published, retired, deleted or renumbered afterwards, a task goes on resolving
      to the protocol it resolves to now. */
  lemma {:induction false} HistoryKeepsItsMeaning(s: State, ops: seq<Op>, id: TaskId, p: Protocol)
    requires Inv(s) && ResolvesTo(s, id, p) && Unprojected(ops, id)
    ensures ResolvesTo(Run(s, ops), id, p)
  {
    hide Inv, ResolvesTo, Apply;
    if ops == [] {
    } else {
      var front := ops[..|ops| - 1];
      HistoryKeepsItsMeaning(s, front, id, p);
      RunKeepsInv(s, front);
      StepPreserves(Run(s, front), ops[|ops| - 1], id, p);
    }
  }

  lemma {:induction false} DigestStays(s: State, op: Op, id: TaskId)
    requires id in s.tasks && s.tasks[id].digest.Sha256? && !(op.ProjectTask? && op.taskId == id)
    ensures id in Apply(s, op).tasks && Apply(s, op).tasks[id].digest == s.tasks[id].digest
  {
    hide HasBinding, HasActiveTask, Archives, HasEnabledBinding, MaxNumber, ProfileHasBinding, ArchiveAfter, Archivable;
    hide BindingPatterns.Refusal, BindingPatterns.Apply;
  }

  /** A task with a captured digest never resolves to other content, even if its revision number is taken over by
      a different definition. */
  lemma {:induction false} NeverOtherContent(s: State, ops: seq<Op>, id: TaskId, p: Protocol)
    requires id in s.tasks && s.tasks[id].digest == Sha256(p) && Unprojected(ops, id)
    ensures var t := Run(s, ops);
      id in t.tasks && t.tasks[id].digest == Sha256(p) && (Resolve(t, t.tasks[id]) == None || Resolve(t, t.tasks[id]) == Some(p))
  {
    hide Apply;
    if ops == [] {
    } else {
      var front := ops[..|ops| - 1];
      NeverOtherContent(s, front, id, p);
      DigestStays(Run(s, front), ops[|ops| - 1], id);
    }
    CapturedDigestDecides(Run(s, ops), Run(s, ops).tasks[id], p);
  }

  /** Only a task attached to a revision that does not exist can be cut off: by a new draft under that number. A
      task that was ever run against the catalogue, or was detached by a deletion, is anchored. */
  lemma {:induction false} ResolvesForGoodExactlyWhenAnchored(s: State, id: TaskId, p: Protocol)
    requires Inv(s) && StillResolves(s, id, p)
    ensures Anchored(s, s.tasks[id]) <==> forall ops | Unprojected(ops, id) :: StillResolves(Run(s, ops), id, p)
  {
    hide Inv, Resolve, Run, Unprojected;
    if Anchored(s, s.tasks[id]) {
      forall ops | Unprojected(ops, id) ensures StillResolves(Run(s, ops), id, p) {
        HistoryKeepsItsMeaning(s, ops, id, p);
      }
    } else {
      UnanchoredIsCutOff(s, id, p);
    }
  }

  lemma {:induction false} UnanchoredIsCutOff(s: State, id: TaskId, p: Protocol)
    requires StillResolves(s, id, p) && !Anchored(s, s.tasks[id])
    ensures exists ops :: Unprojected(ops, id) && !StillResolves(Run(s, ops), id, p)
  {
    var key := s.tasks[id].key;
    var content := Content(0, Text(None, 0), NoDigest);
    var ops := [CreateProfile(key.profile, false), CreateRevision(key, content)];
    var s1 := Apply(s, ops[0]);
    assert Run(s, ops[..1]) == s1 by {
      assert ops[..1][..0] == [];
    }
    assert ops[..|ops| - 1] == ops[..1];
    assert Run(s, ops) == Apply(s1, ops[1]);
    assert Apply(s1, ops[1]).revisions[key] == Revision(content, Draft);
    assert !StillResolves(Run(s, ops), id, p) && Unprojected(ops, id);
  }

  // ---------------------------------------------------------------- the tables, in place

  /** The tasks of the numbers in `done` with their digests filled in. */
  function FilledTasks(s: State, profile: ProfileId, number: int, done: set<int>): map<TaskId, Task> {
    map id | id in s.tasks ::
      if MustArchive(s.tasks[id], profile, number) && s.tasks[id].key.number in done then Filled(s, s.tasks[id]) else s.tasks[id]
  }

  ghost predicate DoneArchives(s: State, profile: ProfileId, number: int, done: set<int>) {
    forall id :: id in s.tasks && MustArchive(s.tasks[id], profile, number) && s.tasks[id].key.number in done ==>
      TaskArchives(s, s.tasks[id])
  }

  /** The archive once the numbers in `done` are in it. */
  ghost predicate ArchivedSoFar(
    s: State, profile: ProfileId, number: int, done: set<int>, archive: map<Digest, Snapshot>)
  {
    && (forall d :: d in s.archive ==> d in archive && archive[d] == s.archive[d])
    && (forall d :: d in archive && d !in s.archive ==>
          d.Sha256? && archive[d] == CanonicalSnapshot(d.of) && exists id :: Supplies(s, profile, number, done, id, d))
    && (forall id, d :: Supplies(s, profile, number, done, id, d) ==> d in archive)
  }

  /** The task asks for this digest to be archived. */
  predicate Supplies(s: State, profile: ProfileId, number: int, done: set<int>, id: TaskId, d: Digest) {
    && id in s.tasks && MustArchive(s.tasks[id], profile, number) && s.tasks[id].key.number in done
    && Archivable(s, s.tasks[id].key).Some? && d == Sha256(Archivable(s, s.tasks[id].key).value)
  }

  function ReferencedNumbers(tasks: map<TaskId, Task>, profile: ProfileId, number: int): set<int> {
    set id | id in tasks && MustArchive(tasks[id], profile, number) :: tasks[id].key.number
  }

  lemma {:induction false} AllArchived(s: State, profile: ProfileId, number: int, done: set<int>, archive: map<Digest, Snapshot>)
    requires ArchivedSoFar(s, profile, number, done, archive) && DoneArchives(s, profile, number, done)
    requires ReferencedNumbers(s.tasks, profile, number) <= done
    ensures Archives(s, profile, number) && archive == ArchiveAfter(s, profile, number)
  {
    hide Archivable, TaskArchives;
    forall id | id in s.tasks && MustArchive(s.tasks[id], profile, number) ensures s.tasks[id].key.number in done {
      assert s.tasks[id].key.number in ReferencedNumbers(s.tasks, profile, number);
    }
    forall d ensures d in archive <==> d in ArchiveAfter(s, profile, number) {
      if d in ArchivedDigests(s, profile, number) {
        var id :| id in s.tasks && MustArchive(s.tasks[id], profile, number) && Archivable(s, s.tasks[id].key).Some?
                  && d == Sha256(Archivable(s, s.tasks[id].key).value);
        assert Supplies(s, profile, number, done, id, d);
      }
      if d in archive && d !in s.archive {
        var id :| Supplies(s, profile, number, done, id, d);
        assert d in ArchivedDigests(s, profile, number);
      }
    }
  }

  lemma {:induction false} FilledIsDetached(s: State, profile: ProfileId, number: int, f: map<TaskId, Task>)
    requires f == FilledTasks(s, profile, number, ReferencedNumbers(s.tasks, profile, number))
    ensures DetachAll(s, profile, number).tasks ==
      map id | id in f :: if Refers(f[id], profile, number) then f[id].(key := Key(0, 0)) else f[id]
  {
    hide Archivable;
    forall id | id in s.tasks && MustArchive(s.tasks[id], profile, number) ensures s.tasks[id].key.number in ReferencedNumbers(s.tasks, profile, number) {
    }
  }

  lemma {:induction false} OneMoreArchived(
    s: State, profile: ProfileId, number: int, done: set<int>, archive: map<Digest, Snapshot>, n: int, p: Protocol)
    requires ArchivedSoFar(s, profile, number, done, archive) && Archivable(s, Key(profile, n)) == Some(p)
    requires exists id :: id in s.tasks && MustArchive(s.tasks[id], profile, number) && s.tasks[id].key.number == n
    ensures var d := Sha256(p);
      ArchivedSoFar(s, profile, number, done + {n}, if d in archive then archive else archive[d := CanonicalSnapshot(p)])
  {
    hide Archivable;
    var d := Sha256(p);
    var after := if d in archive then archive else archive[d := CanonicalSnapshot(p)];
    var w :| w in s.tasks && MustArchive(s.tasks[w], profile, number) && s.tasks[w].key.number == n;
    assert s.tasks[w].key == Key(profile, n);
    assert Supplies(s, profile, number, done + {n}, w, d);
    forall e | e in after && e !in s.archive
      ensures e.Sha256? && after[e] == CanonicalSnapshot(e.of) && exists id :: Supplies(s, profile, number, done + {n}, id, e)
    {
      if e in archive {
        var id :| Supplies(s, profile, number, done, id, e);
        assert Supplies(s, profile, number, done + {n}, id, e);
      }
    }
    forall id, e | Supplies(s, profile, number, done + {n}, id, e) ensures e in after {
      if s.tasks[id].key.number == n {
        assert s.tasks[id].key == Key(profile, n);
      } else {
        assert Supplies(s, profile, number, done, id, e);
      }
    }
  }

  lemma {:induction false} OneMoreDone(s: State, profile: ProfileId, number: int, done: set<int>, n: int, p: Protocol)
    requires DoneArchives(s, profile, number, done) && Archivable(s, Key(profile, n)) == Some(p)
    requires Sha256(p) in s.archive ==> s.archive[Sha256(p)] == CanonicalSnapshot(p)
    requires forall id :: id in s.tasks && MustArchive(s.tasks[id], profile, number) && s.tasks[id].key.number == n ==>
               s.tasks[id].digest == NoDigest || s.tasks[id].digest == Sha256(p)
    ensures DoneArchives(s, profile, number, done + {n})
  {
    hide Archivable;
    forall id | id in s.tasks && MustArchive(s.tasks[id], profile, number) && s.tasks[id].key.number in done + {n}
      ensures TaskArchives(s, s.tasks[id])
    {
      if s.tasks[id].key.number == n { assert s.tasks[id].key == Key(profile, n); }
    }
  }

  lemma {:induction false} NothingArchived(s: State, profile: ProfileId, number: int)
    ensures ArchivedSoFar(s, profile, number, {}, s.archive) && DoneArchives(s, profile, number, {})
    ensures FilledTasks(s, profile, number, {}) == s.tasks
  {
  }

  /** Why the loop stops at a number: the task that brought it up does not archive. */
  lemma {:induction false} NumberBlocks(s: State, profile: ProfileId, number: int, id: TaskId)
    requires id in s.tasks && MustArchive(s.tasks[id], profile, number) && !TaskArchives(s, s.tasks[id])
    ensures !Archives(s, profile, number)
  {
  }

  class ProfileStore {
    var profiles: map<ProfileId, Profile>
    var revisions: map<Key, Revision>
    var archive: map<Digest, Snapshot>
    var tasks: map<TaskId, Task>
    const bindings: BindingPatterns.BindingTable
    var validated: map<RequestId, BindingPatterns.Pending>  // requests between their check and their save

    ghost function Contents(): State
      reads this, bindings
    {
      State(profiles, revisions, bindings.Contents(), validated, archive, tasks)
    }

    constructor ()
      ensures Contents() == State(map[], map[], BindingPatterns.EMPTY_TABLE, map[], map[], map[])
      ensures Inv(Contents()) && EnabledArePublished(Contents()) && RequestsCurrent(Contents())
    {
      profiles, revisions, archive, tasks, validated := map[], map[], map[], map[], map[];
      bindings := new BindingPatterns.BindingTable();
    }

    method CreateProfile(id: ProfileId, builtin: bool) returns (err: Option<Error>)
      modifies this
      ensures (Contents(), err) == CreateProfileStep(old(Contents()), id, builtin)
    {
      if id == 0 {
        return Some(MissingIdentity);
      }
      if id in profiles {
        return Some(AlreadyExists);
      }
      profiles := profiles[id := Profile(builtin, 0)];
      return None;
    }

    method LargestNumber(table: map<Key, Revision>, profile: ProfileId) returns (m: int)
      ensures m == MaxNumber(table, profile)
    {
      var todo := set k | k in table && k.profile == profile;
      ghost var ns := Numbers(table, profile);
      ghost var seen: set<int> := {};
      var none := true;
      m := 0;
      while todo != {}
        invariant none <==> seen == {}
        invariant forall k :: k in todo ==> k in table && k.profile == profile
        invariant forall k :: k in table && k.profile == profile && k !in todo ==> k.number in seen
        invariant seen <= ns
        invariant if seen == {} then m == 0 else m in seen && forall n :: n in seen ==> n <= m
        decreases todo
      {
        var k :| k in todo;
        todo := todo - {k};
        m := if none || k.number > m then k.number else m;
        none := false;
        seen := seen + {k.number};
      }
      assert seen == ns;
    }

    method CreateRevision(key: Key, content: Content) returns (err: Option<Error>)
      modifies this
      ensures (Contents(), err) == CreateRevisionStep(old(Contents()), key, content)
    {
      hide MaxNumber;
      if key.profile == 0 {
        return Some(MissingIdentity);
      }
      if key.profile !in profiles {
        return Some(NotFound);
      }
      var profile := profiles[key.profile];
      var k := key;
      if key.number <= 0 {
        var largest := LargestNumber(revisions, key.profile);
        profile := profile.(latest := Bigger(profile.latest, largest) + 1);
        k := key.(number := profile.latest);
      } else if profile.latest < key.number {
        profile := profile.(latest := key.number);
      }
      if k in revisions {
        return Some(RevisionConflict);  // and the number allocation rolls back
      }
      profiles := profiles[key.profile := profile];
      revisions := revisions[k := Revision(content, Draft)];
      return None;
    }

    method SaveRevision(key: Key, r: Revision) returns (err: Option<Error>)
      modifies this
      ensures (Contents(), err) == SaveRevisionStep(old(Contents()), key, r)
    {
      if key.profile == 0 || key.number <= 0 {
        return Some(MissingIdentity);
      }
      if key.profile !in profiles {
        return Some(NotFound);
      }
      if key in revisions {
        match revisions[key].state {
          case Published => return Some(PublishedImmutable);
          case Retired => return Some(RetiredImmutable);
          case Draft =>
        }
      }
      revisions := revisions[key := r];
      if profiles[key.profile].latest < key.number {
        profiles := profiles[key.profile := profiles[key.profile].(latest := key.number)];
      } else {
        assert profiles == profiles[key.profile := profiles[key.profile]];
      }
      return None;
    }

    method Publish(key: Key) returns (err: Option<Error>)
      modifies this
      ensures (Contents(), err) == PublishStep(old(Contents()), key)
    {
      if key !in revisions {
        return Some(NotFound);
      }
      if revisions[key].state == Published {
        return None;
      }
      if key.profile !in profiles {
        return Some(NotFound);
      }
      revisions := revisions[key := revisions[key].(state := Published)];
      var profile := profiles[key.profile];
      if key.number >= profile.latest || profile.latest <= 0 {
        profile := profile.(latest := key.number);
      }
      profiles := profiles[key.profile := profile];
      return None;
    }

    method Retire(key: Key) returns (err: Option<Error>)
      modifies this
      ensures (Contents(), err) == RetireStep(old(Contents()), key)
    {
      if key.profile == 0 || key.number <= 0 {
        return Some(MissingIdentity);
      }
      if key !in revisions {
        return Some(NotFound);
      }
      if revisions[key].state == Retired {
        return None;
      }
      if revisions[key].state != Published {
        return Some(NotFound);
      }
      var active := exists id :: id in bindings.rows && BoundTo(bindings.rows[id], key) && bindings.rows[id].enabled;
      if active {
        return Some(HasActiveBindings);
      }
      revisions := revisions[key := revisions[key].(state := Retired)];
      return None;
    }

    /** Archives every revision that a finished Profile task of the deletion still names, on the transaction's own
        copies of the two tables. */
    method ArchiveTasks(profile: ProfileId, number: int)
      returns (ok: bool, archived: map<Digest, Snapshot>, filled: map<TaskId, Task>)
      ensures ok == Archives(Contents(), profile, number)
      ensures ok ==> archived == ArchiveAfter(Contents(), profile, number)
      ensures ok ==> filled == FilledTasks(Contents(), profile, number, ReferencedNumbers(tasks, profile, number))
    {
      hide TaskArchives, Archives, ArchiveAfter, ArchivedSoFar, DoneArchives, Archivable;
      ghost var s := Contents();
      archived, filled := archive, tasks;
      var todo := ReferencedNumbers(tasks, profile, number);
      ghost var all, done := todo, {};
      NothingArchived(s, profile, number);
      while todo != {}
        invariant all == done + todo && done !! todo
        invariant ArchivedSoFar(s, profile, number, done, archived) && DoneArchives(s, profile, number, done)
        invariant filled == FilledTasks(s, profile, number, done)
        decreases todo
      {
        var n :| n in todo;
        ghost var id :| id in s.tasks && MustArchive(s.tasks[id], profile, number) && s.tasks[id].key.number == n;
        assert s.tasks[id].key == Key(profile, n);
        ok, archived, filled := ArchiveNumber(profile, number, n, archived, filled, done, id);
        if !ok {
          return;
        }
        todo := todo - {n};
        done := done + {n};
      }
      AllArchived(s, profile, number, done, archived);
      assert done == all;
      ok := true;
    }

    method ArchiveNumber(profile: ProfileId, number: int, n: int, archive0: map<Digest, Snapshot>, tasks0: map<TaskId, Task>,
                         ghost done: set<int>, ghost id: TaskId)
      returns (ok: bool, archived: map<Digest, Snapshot>, filled: map<TaskId, Task>)
      requires ArchivedSoFar(Contents(), profile, number, done, archive0) && DoneArchives(Contents(), profile, number, done)
      requires tasks0 == FilledTasks(Contents(), profile, number, done) && n !in done
      requires id in tasks && MustArchive(tasks[id], profile, number) && tasks[id].key == Key(profile, n)
      ensures !ok ==> !Archives(Contents(), profile, number)
      ensures ok ==> ArchivedSoFar(Contents(), profile, number, done + {n}, archived)
      ensures ok ==> DoneArchives(Contents(), profile, number, done + {n})
      ensures ok ==> filled == FilledTasks(Contents(), profile, number, done + {n})
    {
      hide ArchivedSoFar, DoneArchives, Archives, FilledTasks;
      ghost var s := Contents();
      archived, filled := archive0, tasks0;
      var key := Key(profile, n);
      if key !in revisions || revisions[key].state == Draft {
        NumberBlocks(s, profile, number, id);
        return false, archived, filled;
      }
      var checked := Checked(revisions[key].content, NoDigest);
      if checked.None? {
        NumberBlocks(s, profile, number, id);
        return false, archived, filled;
      }
      var p := checked.value;
      hide Checked, Archivable;
      assert Archivable(s, key) == Some(p) by { ArchivableIs(s, key, p); }
      UntouchedNumber(s, profile, number, done, n);
      if other :| other in filled && Named(filled[other], profile, n) && filled[other].digest != NoDigest
                  && filled[other].digest != Sha256(p) {
        NumberBlocks(s, profile, number, other);
        return false, archived, filled;
      }
      if Sha256(p) !in archived {
        archived := archived[Sha256(p) := CanonicalSnapshot(p)];
      }
      OneMoreArchived(s, profile, number, done, archive0, n, p);
      StoredIs(s, profile, number, done, archive0, p);
      if archived[Sha256(p)] != CanonicalSnapshot(p) {
        NumberBlocks(s, profile, number, id);
        return false, archived, filled;
      }
      OneMoreDone(s, profile, number, done, n, p);
      filled := map other | other in filled ::
        if Named(filled[other], profile, n) && filled[other].digest == NoDigest then filled[other].(digest := Sha256(p))
        else filled[other];
      OneMoreFilled(s, profile, number, done, n, p);
      return true, archived, filled;
    }

    method DeleteRevision(key: Key) returns (err: Option<Error>)
      modifies this
      ensures (Contents(), err) == DeleteRevisionStep(old(Contents()), key)
    {
      hide Archives, ArchiveAfter, MaxNumber, Filled;
      if key.profile == 0 || key.number <= 0 {
        return Some(MissingIdentity);
      }
      if key.profile !in profiles || key !in revisions {
        return Some(NotFound);
      }
      if profiles[key.profile].builtin {
        return Some(BuiltinImmutable);
      }
      var bound := exists id :: id in bindings.rows && BoundTo(bindings.rows[id], key);
      if bound {
        return Some(HasBindings);
      }
      var active := exists id :: id in tasks && Refers(tasks[id], key.profile, key.number) && !tasks[id].terminal;
      if active {
        return Some(HasActiveTasks);
      }
      var ok, archived, filled := ArchiveTasks(key.profile, key.number);
      if !ok {
        return Some(SnapshotInvalid);
      }
      FilledIsDetached(Contents(), key.profile, key.number, filled);
      archive := archived;
      tasks := map id | id in filled ::
        if Refers(filled[id], key.profile, key.number) then filled[id].(key := Key(0, 0)) else filled[id];
      assert tasks == DetachAll(old(Contents()), key.profile, key.number).tasks;
      revisions := revisions - {key};
      var latest := LargestNumber(revisions, key.profile);
      profiles := profiles[key.profile := profiles[key.profile].(latest := latest)];
      return None;
    }

    method DeleteProfile(profile: ProfileId) returns (err: Option<Error>)
      modifies this
      ensures (Contents(), err) == DeleteProfileStep(old(Contents()), profile)
    {
      hide Archives, ArchiveAfter, Filled;
      if profile == 0 {
        return Some(MissingIdentity);
      }
      if profile !in profiles {
        return Some(NotFound);
      }
      if profiles[profile].builtin {
        return Some(BuiltinImmutable);
      }
      var bound := exists id :: id in bindings.rows && bindings.rows[id].profile == profile;
      if bound {
        return Some(HasBindings);
      }
      var active := exists id :: id in tasks && Refers(tasks[id], profile, 0) && !tasks[id].terminal;
      if active {
        return Some(HasActiveTasks);
      }
      var ok, archived, filled := ArchiveTasks(profile, 0);
      if !ok {
        return Some(SnapshotInvalid);
      }
      FilledIsDetached(Contents(), profile, 0, filled);
      archive := archived;
      tasks := map id | id in filled :: if Refers(filled[id], profile, 0) then filled[id].(key := Key(0, 0)) else filled[id];
      assert tasks == DetachAll(old(Contents()), profile, 0).tasks;
      revisions := map k | k in revisions && k.profile != profile :: revisions[k];
      profiles := profiles - {profile};
      return None;
    }

    method Validate(request: RequestId, p: BindingPatterns.Pending) returns (err: Option<Error>)
      modifies this
      ensures (Contents(), err) == ValidateStep(old(Contents()), request, p)
    {
      var b := p.binding;
      if b.profile == 0 || b.revision <= 0 {
        return Some(MissingIdentity);
      }
      var key := Key(b.profile, b.revision);
      if b.profile !in profiles || key !in revisions {
        return Some(NotFound);
      }
      if revisions[key].state != Published {
        return Some(InvalidState);
      }
      validated := validated[request := p];
      return None;
    }

    method CheckPeers(request: RequestId) returns (err: Option<Error>)
      modifies this, bindings
      ensures (Contents(), err) == CheckPeersStep(old(Contents()), request)
    {
      hide BindingPatterns.Refusal, BindingPatterns.Apply;
      if request !in validated {
        return Some(NotFound);
      }
      var p := validated[request];
      validated := validated - {request};
      var problem := bindings.CheckPeers(request, p.id, p.binding);
      return if problem.Some? then Some(BindingError(problem.value)) else None;
    }

    method WriteBinding(request: RequestId) returns (err: Option<Error>)
      modifies bindings
      ensures (Contents(), err) == WriteBindingStep(old(Contents()), request)
    {
      if request !in bindings.ready {
        return Some(NotFound);
      }
      bindings.Write(request);
      return None;
    }

    method SaveBinding(request: RequestId) returns (err: Option<Error>)
      modifies this, bindings
      ensures (Contents(), err) == SaveBindingStep(old(Contents()), request)
    {
      hide BindingPatterns.Refusal, BindingPatterns.Apply;
      if request !in validated {
        return Some(NotFound);
      }
      var p := validated[request];
      validated := validated - {request};
      var problem := bindings.Save(p.id, p.binding);
      return if problem.Some? then Some(BindingError(problem.value)) else None;
    }

    method Toggle(id: BindingPatterns.BindingId, enabled: bool) returns (err: Option<Error>)
      modifies bindings
      ensures (Contents(), err) == ToggleStep(old(Contents()), id, enabled)
    {
      if id == 0 {
        return Some(MissingIdentity);
      }
      if id !in bindings.rows {
        return Some(NotFound);
      }
      var b := bindings.rows[id];
      if b.enabled == enabled {
        return None;
      }
      if enabled {
        var key := Key(b.profile, b.revision);
        if key !in revisions || revisions[key].state != Published {
          return Some(RetiredImmutable);
        }
      }
      bindings.SetEnabled(id, enabled);
      return None;
    }

    method DeleteBinding(id: BindingPatterns.BindingId) returns (err: Option<Error>)
      modifies bindings
      ensures (Contents(), err) == DeleteBindingStep(old(Contents()), id)
    {
      assert id !in bindings.rows ==> bindings.rows - {id} == bindings.rows;
      var problem := bindings.Delete(id);
      return if problem.Some? then Some(NotFound) else None;
    }
  }

  /** A Profile task of exactly this revision. */
  predicate Named(t: Task, profile: ProfileId, n: int) { t.isProfile && t.key == Key(profile, n) }

  lemma {:induction false} ArchivableIs(s: State, key: Key, p: Protocol)
    requires key in s.revisions && s.revisions[key].state != Draft && Checked(s.revisions[key].content, NoDigest) == Some(p)
    ensures Archivable(s, key) == Some(p)
  {
  }

  /** The tasks of a number the loop has not reached are still as they were. */
  lemma {:induction false} UntouchedNumber(s: State, profile: ProfileId, number: int, done: set<int>, n: int)
    requires n !in done && (number == 0 || number == n)
    ensures var f := FilledTasks(s, profile, number, done);
      f.Keys == s.tasks.Keys
      && (forall id :: id in f ==> (Named(f[id], profile, n) <==> Named(s.tasks[id], profile, n)))
      && (forall id :: id in f && Named(f[id], profile, n) ==> f[id] == s.tasks[id] && MustArchive(s.tasks[id], profile, number))
  {
    hide Archivable;
  }

  lemma {:induction false} StoredIs(
    s: State, profile: ProfileId, number: int, done: set<int>, archive: map<Digest, Snapshot>, p: Protocol)
    requires ArchivedSoFar(s, profile, number, done, archive)
    ensures Sha256(p) in archive && Sha256(p) !in s.archive ==> archive[Sha256(p)] == CanonicalSnapshot(p)
    ensures Sha256(p) in s.archive ==> Sha256(p) in archive && archive[Sha256(p)] == s.archive[Sha256(p)]
  {
    hide Supplies;
  }

  lemma {:induction false} OneMoreFilled(s: State, profile: ProfileId, number: int, done: set<int>, n: int, p: Protocol)
    requires n !in done && (number == 0 || number == n) && Archivable(s, Key(profile, n)) == Some(p)
    ensures var f := FilledTasks(s, profile, number, done);
      FilledTasks(s, profile, number, done + {n}) ==
      map id | id in f :: if Named(f[id], profile, n) && f[id].digest == NoDigest then f[id].(digest := Sha256(p)) else f[id]
  {
    hide Archivable;
    UntouchedNumber(s, profile, number, done, n);
  }
}
