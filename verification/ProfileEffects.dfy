/** What the operations of `ProfileCatalog` do, said without its step functions: when each goes through, what it leaves
    behind, and what the next operation then finds. */
module ProfileEffects {
  import opened Wrappers
  import opened ProfileCatalog
  import BindingPatterns

  predicate Works(r: (State, Option<Error>)) { r.1.None? }

  // ---------------------------------------------------------------- drafting and publishing

  /** A profile can be created under any id but 0 that is free, and has no revisions then. */
  lemma {:induction false} CreatedProfileIsEmpty(s: State, id: ProfileId, builtin: bool)
    requires Inv(s)
    ensures Works(CreateProfileStep(s, id, builtin)) <==> id != 0 && id !in s.profiles
    ensures Works(CreateProfileStep(s, id, builtin)) ==>
      var t := CreateProfileStep(s, id, builtin).0;
      t == s.(profiles := s.profiles[id := Profile(builtin, 0)]) && forall k :: k in t.revisions ==> k.profile != id
    ensures !Works(CreateProfileStep(s, id, builtin)) ==> CreateProfileStep(s, id, builtin).0 == s
  {
    OwnedRevisions(s);
    hide Inv;
  }

  lemma {:induction false} OwnedRevisions(s: State)
    requires Inv(s)
    ensures forall k :: k in s.revisions ==> k.profile in s.profiles && k.profile != 0 && k.number > 0
    ensures forall p :: p in s.profiles ==> s.profiles[p].latest >= 0
    ensures forall k :: k in s.revisions ==> k.number <= s.profiles[k.profile].latest
  {
    hide ArchiveIsCanonical, BindingPatterns.Numbered;
  }

  /** A draft can be added under a free positive number, or without one under a number above all there are. */
  lemma {:induction false} DraftIsAdded(s: State, key: Key, content: Content)
    requires Inv(s)
    ensures Works(CreateRevisionStep(s, key, content)) <==>
      key.profile in s.profiles && key.profile != 0 && (key.number > 0 ==> key !in s.revisions)
    ensures Works(CreateRevisionStep(s, key, content)) ==>
      var t := CreateRevisionStep(s, key, content).0;
      exists k: Key :: k.profile == key.profile && k !in s.revisions
        && t == s.(revisions := s.revisions[k := Revision(content, Draft)], profiles := t.profiles)
        && (if key.number > 0 then k == key else forall j :: j in s.revisions && j.profile == key.profile ==> j.number < k.number)
        && t.profiles == s.profiles[key.profile := t.profiles[key.profile]] && t.profiles[key.profile].latest >= k.number
    ensures !Works(CreateRevisionStep(s, key, content)) ==> CreateRevisionStep(s, key, content).0 == s
  {
    OwnedRevisions(s);
    hide Inv;
    if key.profile in s.profiles && key.profile != 0 {
      var latest := Bigger(s.profiles[key.profile].latest, MaxNumber(s.revisions, key.profile)) + 1;
      var k := Key(key.profile, if key.number <= 0 then latest else key.number);
      assert key.number <= 0 ==> k !in s.revisions;
    }
  }

  /** A revision can be written where there is none, or over a draft. */
  lemma {:induction false} SavedIsWritten(s: State, key: Key, r: Revision)
    ensures Works(SaveRevisionStep(s, key, r)) <==>
      key.profile in s.profiles && key.profile != 0 && key.number > 0 && (key in s.revisions ==> s.revisions[key].state == Draft)
    ensures Works(SaveRevisionStep(s, key, r)) ==>
      var t := SaveRevisionStep(s, key, r).0;
      && t == s.(revisions := s.revisions[key := r], profiles := t.profiles)
      && t.profiles == s.profiles[key.profile := s.profiles[key.profile].(latest := t.profiles[key.profile].latest)]
    ensures !Works(SaveRevisionStep(s, key, r)) ==> SaveRevisionStep(s, key, r).0 == s
  {
  }

  /** Publishing works for every existing revision, and leaves it published with the content it had; nothing else changes
      but the latest number of its profile. */
  lemma {:induction false} PublishedAfterPublish(s: State, key: Key)
    ensures Works(PublishStep(s, key)) <==> key in s.revisions && (s.revisions[key].state == Published || key.profile in s.profiles)
    ensures Works(PublishStep(s, key)) ==>
      var t := PublishStep(s, key).0;
      && t.revisions == s.revisions[key := Revision(s.revisions[key].content, Published)]
      && t == s.(revisions := t.revisions, profiles := t.profiles)
      && (t.profiles == s.profiles ||
          (key.profile in s.profiles
           && t.profiles == s.profiles[key.profile := s.profiles[key.profile].(latest := t.profiles[key.profile].latest)]))
    ensures !Works(PublishStep(s, key)) ==> PublishStep(s, key).0 == s && PublishStep(s, key).1 == Some(NotFound)
  {
    if key in s.revisions && s.revisions[key].state == Published {
      assert s.revisions[key := Revision(s.revisions[key].content, Published)] == s.revisions;
    }
  }

  /** Retiring works for a published revision without enabled bindings, and again for a retired one. */
  lemma {:induction false} RetiredAfterRetire(s: State, key: Key)
    ensures Works(RetireStep(s, key)) <==>
      key.profile != 0 && key.number > 0 && key in s.revisions
      && (s.revisions[key].state == Retired || (s.revisions[key].state == Published && !Serving(s, key)))
    ensures Works(RetireStep(s, key)) ==>
      RetireStep(s, key).0 == s.(revisions := s.revisions[key := Revision(s.revisions[key].content, Retired)])
    ensures !Works(RetireStep(s, key)) ==> RetireStep(s, key).0 == s
  {
    if key in s.revisions && s.revisions[key].state == Retired {
      assert s.revisions[key := Revision(s.revisions[key].content, Retired)] == s.revisions;
    }
    if HasEnabledBinding(s, key) {
      var id :| id in s.bindings.bindings && BoundTo(s.bindings.bindings[id], key) && s.bindings.bindings[id].enabled;
      assert ServedBy(s, key, id);
    }
    if id :| ServedBy(s, key, id) { assert BoundTo(s.bindings.bindings[id], key); }
  }

  predicate ServedBy(s: State, key: Key, id: BindingPatterns.BindingId) {
    id in s.bindings.bindings && s.bindings.bindings[id].enabled
    && s.bindings.bindings[id].profile == key.profile && s.bindings.bindings[id].revision == key.number
  }

  /** Some enabled binding is on the revision. */
  ghost predicate Serving(s: State, key: Key) { exists id :: ServedBy(s, key, id) }

  /** Publication never changes a number: the profile's latest one is the largest already. */
  lemma {:induction false} PublishKeepsNumbers(s: State, key: Key)
    requires Inv(s)
    ensures PublishStep(s, key).0.profiles == s.profiles
  {
    OwnedRevisions(s);
    hide Inv;
    if key in s.revisions {
      assert s.profiles[key.profile := s.profiles[key.profile].(latest := s.profiles[key.profile].latest)] == s.profiles;
    }
  }

  predicate Blank(key: Key) { key.profile == 0 || key.number <= 0 }

  /** The errors of drafting and retiring say what was wrong: a blank identity, a missing row, a number that is taken, an
      immutable revision, or an enabled binding. */
  lemma {:induction false} DraftRefusalsSayWhy(s: State, id: ProfileId, builtin: bool, key: Key, content: Content, r: Revision)
    requires Inv(s)
    ensures var err := CreateProfileStep(s, id, builtin).1;
      (err == Some(MissingIdentity) <==> id == 0) && (err == Some(AlreadyExists) <==> id != 0 && id in s.profiles)
    ensures var err := CreateRevisionStep(s, key, content).1;
      && (err == Some(MissingIdentity) <==> key.profile == 0)
      && (err == Some(NotFound) <==> key.profile != 0 && key.profile !in s.profiles)
      && (err == Some(RevisionConflict) <==> key in s.revisions)
    ensures var err := SaveRevisionStep(s, key, r).1;
      && (err == Some(MissingIdentity) <==> Blank(key))
      && (err == Some(NotFound) <==> !Blank(key) && key.profile !in s.profiles)
      && (err == Some(PublishedImmutable) <==> key in s.revisions && s.revisions[key].state == Published)
      && (err == Some(RetiredImmutable) <==> key in s.revisions && s.revisions[key].state == Retired)
    ensures var err := RetireStep(s, key).1;
      && (err == Some(MissingIdentity) <==> Blank(key))
      && (err == Some(HasActiveBindings) <==> key in s.revisions && s.revisions[key].state == Published && Serving(s, key))
      && (err == Some(NotFound) <==> !Blank(key) && (key !in s.revisions || s.revisions[key].state == Draft))
  {
    OwnedRevisions(s);
    RetiredAfterRetire(s, key);
    if Serving(s, key) {
      var b :| ServedBy(s, key, b);
      assert BoundTo(s.bindings.bindings[b], key);
    }
    hide Inv, Serving, MaxNumber;
  }

  // ---------------------------------------------------------------- bindings

  /** A request is let through exactly when its revision is published when the handler looks. */
  lemma {:induction false} ValidatedExactlyWhenPublished(s: State, request: RequestId, p: BindingPatterns.Pending)
    requires Inv(s)
    ensures var key := Key(p.binding.profile, p.binding.revision);
      Works(ValidateStep(s, request, p)) <==> key in s.revisions && s.revisions[key].state == Published
    ensures ValidateStep(s, request, p).0 ==
      if Works(ValidateStep(s, request, p)) then s.(validated := s.validated[request := p]) else s
  {
    OwnedRevisions(s);
    hide Inv;
  }

  /** So right after its publication a revision can be bound, and right after its retirement it cannot. */
  lemma {:induction false} BindableFromPublishToRetire(s: State, key: Key, request: RequestId, p: BindingPatterns.Pending)
    requires Inv(s) && p.binding.profile == key.profile && p.binding.revision == key.number
    ensures Works(PublishStep(s, key)) ==> Works(ValidateStep(PublishStep(s, key).0, request, p))
    ensures Works(RetireStep(s, key)) ==> !Works(ValidateStep(RetireStep(s, key).0, request, p))
    ensures Works(RetireStep(s, key)) ==> Works(PublishStep(RetireStep(s, key).0, key))
  {
    PublishedAfterPublish(s, key);
    RetiredAfterRetire(s, key);
    OwnedRevisions(s);
    if Works(RetireStep(s, key)) { PublishedAfterPublish(RetireStep(s, key).0, key); }
    hide Inv, PublishStep, RetireStep;
  }

  /** The request is validated and the table does not refuse it. */
  predicate Takes(s: State, request: RequestId) {
    request in s.validated
    && BindingPatterns.Refusal(s.bindings.bindings, s.validated[request].id, s.validated[request].binding).None?
  }

  /** The table with the request's rule in it. */
  function Stored(s: State, request: RequestId): BindingPatterns.Table
    requires request in s.validated
  {
    BindingPatterns.Apply(s.bindings, BindingPatterns.Save(s.validated[request].id, s.validated[request].binding))
  }

  /** Handing a validated request to the table, as a check or as a save, works exactly when the table does not refuse it,
      and the request is then no longer waiting; a ready one is written whatever the catalogue holds. */
  lemma {:induction false} HandedToTheTable(s: State, request: RequestId)
    ensures var r := CheckPeersStep(s, request);
      && (Works(r) <==> Takes(s, request))
      && r.0 == s.(validated := s.validated - {request}, bindings := r.0.bindings)
      && (Works(r) ==> r.0.bindings == s.bindings.(ready := s.bindings.ready[request := s.validated[request]]))
      && (!Works(r) ==> r.0.bindings == s.bindings)
    ensures var r := SaveBindingStep(s, request);
      && (Works(r) <==> Works(CheckPeersStep(s, request)))
      && r.0 == s.(validated := s.validated - {request}, bindings := r.0.bindings)
      && (Works(r) ==> r.0.bindings == Stored(s, request))
      && (!Works(r) ==> r.0.bindings == s.bindings)
    ensures var r := WriteBindingStep(s, request);
      && (Works(r) <==> request in s.bindings.ready)
      && r.0 == (if Works(r) then s.(bindings := BindingPatterns.Apply(s.bindings, BindingPatterns.Write(request))) else s)
  {
    hide BindingPatterns.Refusal, BindingPatterns.Put;
    assert request !in s.validated ==> s.validated - {request} == s.validated;
  }

  /** A binding can be switched off always and on only while its revision is published; its deletion needs only the row. */
  lemma {:induction false} ToggledExactlyWhen(s: State, id: BindingPatterns.BindingId, enabled: bool)
    requires Inv(s)
    ensures Works(ToggleStep(s, id, enabled)) <==>
      id != 0 && id in s.bindings.bindings
      && var b := s.bindings.bindings[id];
         var key := Key(b.profile, b.revision);
         enabled ==> b.enabled || (key in s.revisions && s.revisions[key].state == Published)
    ensures var r := ToggleStep(s, id, enabled);
      r.0 == if Works(r) then s.(bindings := s.bindings.(bindings :=
                 s.bindings.bindings[id := s.bindings.bindings[id].(enabled := enabled)])) else s
    ensures var r := DeleteBindingStep(s, id);
      && (Works(r) <==> id in s.bindings.bindings)
      && r.0 == s.(bindings := s.bindings.(bindings := s.bindings.bindings - {id}))
  {
    hide Inv;
    assert id !in s.bindings.bindings ==> s.bindings.bindings - {id} == s.bindings.bindings;
    if id in s.bindings.bindings && s.bindings.bindings[id].enabled == enabled {
      assert s.bindings.bindings[id := s.bindings.bindings[id].(enabled := enabled)] == s.bindings.bindings;
    }
  }

  /** The errors of binding say what was wrong: a blank identity, a missing row, a revision that is not published, or what
      the binding table gives as its reason. */
  lemma {:induction false} BindingRefusalsSayWhy(
    s: State, request: RequestId, p: BindingPatterns.Pending, id: BindingPatterns.BindingId, enabled: bool)
    requires Inv(s)
    ensures var err, key := ValidateStep(s, request, p).1, Key(p.binding.profile, p.binding.revision);
      && (err == Some(MissingIdentity) <==> Blank(key)) && (err == Some(NotFound) <==> !Blank(key) && key !in s.revisions)
      && (err == Some(InvalidState) <==> key in s.revisions && s.revisions[key].state != Published)
    ensures var err := CheckPeersStep(s, request).1;
      && err == SaveBindingStep(s, request).1 && (err == Some(NotFound) <==> request !in s.validated)
      && (request in s.validated && err.Some? ==>
            var refusal := BindingPatterns.Refusal(s.bindings.bindings, s.validated[request].id, s.validated[request].binding);
            err.value.BindingError? && refusal == Some(err.value.of))
    ensures WriteBindingStep(s, request).1 in {None, Some(NotFound)} && DeleteBindingStep(s, id).1 in {None, Some(NotFound)}
    ensures var err := ToggleStep(s, id, enabled).1;
      && (err == Some(MissingIdentity) <==> id == 0) && (err == Some(NotFound) <==> id != 0 && id !in s.bindings.bindings)
      && err in {None, Some(MissingIdentity), Some(NotFound), Some(RetiredImmutable)}
  {
    OwnedRevisions(s);
    hide Inv, BindingPatterns.Refusal, BindingPatterns.Apply;
  }

  // ---------------------------------------------------------------- tasks

  /** The text compiles to the protocol, and both its digest and its schema version say so; version 1 may stand for the
      unversioned 0. */
  predicate Holds(c: Content, p: Protocol) {
    c.text.compiled == Some(p) && c.digest == Sha256(p)
    && (c.schemaVersion == p.schemaVersion || (p.schemaVersion == 0 && c.schemaVersion == 1))
  }

  /** While its revision exists, a profile task resolves to a protocol exactly when the revision has been published, holds
      that protocol, and the task captured no other digest. */
  lemma {:induction false} AttachedResolvesExactlyWhen(s: State, t: Task, p: Protocol)
    requires t.key.profile != 0 && t.key.number > 0 && t.key in s.revisions
    ensures Resolve(s, t) == Some(p) <==>
      t.isProfile && (t.digest == NoDigest || t.digest == Sha256(p))
      && s.revisions[t.key].state in {Published, Retired} && Holds(s.revisions[t.key].content, p)
  {
  }

  /** Otherwise it resolves to the protocol of its digest exactly when that is archived. */
  lemma {:induction false} DetachedResolvesExactlyWhen(s: State, t: Task, p: Protocol)
    requires Inv(s) && (t.key.profile == 0 || t.key.number <= 0 || t.key !in s.revisions)
    ensures Resolve(s, t) == Some(p) <==> t.isProfile && t.digest == Sha256(p) && Sha256(p) in s.archive
  {
    hide LatestIsMax, Owned, BindingPatterns.Numbered;
  }

  /** The task captured its protocol from an existing revision, and still resolves to it. */
  predicate Resolves(s: State, t: Task) { t.key in s.revisions && Resolve(s, t).Some? }

  lemma {:induction false} ArchivesExactlyWhenResolving(s: State, profile: ProfileId, number: int)
    requires Inv(s) && profile != 0
    ensures Archives(s, profile, number) <==>
      forall id :: id in s.tasks && MustArchive(s.tasks[id], profile, number) ==> Resolves(s, s.tasks[id])
  {
    OwnedRevisions(s);
    hide LatestIsMax, Owned, BindingPatterns.Numbered;
    forall id | id in s.tasks && MustArchive(s.tasks[id], profile, number)
      ensures TaskArchives(s, s.tasks[id]) <==> Resolves(s, s.tasks[id])
    {
      TaskArchivesExactlyWhen(s, s.tasks[id]);
    }
  }

  lemma {:induction false} TaskArchivesExactlyWhen(s: State, t: Task)
    requires ArchiveIsCanonical(s) && t.isProfile && t.key.profile != 0 && (t.key in s.revisions ==> t.key.number > 0)
    ensures TaskArchives(s, t) <==> Resolves(s, t)
  {
  }

  /** The revisions a deletion removes: one, or with number 0 all of a profile. */
  predicate Removes(k: Key, profile: ProfileId, number: int) { k.profile == profile && (number == 0 || k.number == number) }

  /** What a deletion of one revision, or with number 0 of a profile, leaves: the removed revisions are gone and the others
      as they were, and the tasks that referred to them are detached and nothing else. */
  ghost predicate Removed(s: State, t: State, profile: ProfileId, number: int) {
    && (forall k :: k in t.revisions <==> k in s.revisions && !Removes(k, profile, number))
    && (forall k :: k in t.revisions ==> t.revisions[k] == s.revisions[k])
    && t.tasks.Keys == s.tasks.Keys && t.bindings == s.bindings && t.validated == s.validated
    && (forall id :: id in s.tasks && !Removes(s.tasks[id].key, profile, number) ==> t.tasks[id] == s.tasks[id])
    && (forall id :: id in s.tasks && Removes(s.tasks[id].key, profile, number) ==>
          t.tasks[id].key == Key(0, 0) && t.tasks[id].isProfile == s.tasks[id].isProfile
          && t.tasks[id].terminal == s.tasks[id].terminal)
  }

  predicate Bound(s: State, profile: ProfileId, number: int, id: BindingPatterns.BindingId) {
    id in s.bindings.bindings && Removes(Key(s.bindings.bindings[id].profile, s.bindings.bindings[id].revision), profile, number)
  }

  /** Nothing stands in the way of removing revisions: no binding of any kind, no unfinished task, and no task whose
      protocol would be lost. */
  ghost predicate Removable(s: State, profile: ProfileId, number: int) {
    && (forall id :: !Bound(s, profile, number, id))
    && (forall id :: id in s.tasks && Removes(s.tasks[id].key, profile, number) ==>
          s.tasks[id].terminal && (s.tasks[id].isProfile ==> Resolves(s, s.tasks[id])))
  }

  lemma {:induction false} DetachingIsLocal(s: State, profile: ProfileId, number: int, id: TaskId)
    requires id in s.tasks
    ensures var t, before := Detached(s, s.tasks[id], profile, number), s.tasks[id];
      if Removes(before.key, profile, number) then
        t.key == Key(0, 0) && t.isProfile == before.isProfile && t.terminal == before.terminal
      else t == before
  {
    hide Archivable;
  }

  lemma {:induction false} DetachingTasks(s: State, t: State, profile: ProfileId, number: int)
    requires t == DetachAll(s, profile, number).(revisions := t.revisions, profiles := t.profiles)
    requires forall k :: k in t.revisions <==> k in s.revisions && !Removes(k, profile, number)
    requires forall k :: k in t.revisions ==> t.revisions[k] == s.revisions[k]
    ensures Removed(s, t, profile, number)
  {
    hide Detached, ArchiveAfter;
    forall id | id in s.tasks { DetachingIsLocal(s, profile, number, id); }
  }

  lemma {:induction false} UnfinishedExactlyWhen(s: State, profile: ProfileId, number: int)
    ensures HasActiveTask(s, profile, number) <==>
      exists id :: id in s.tasks && Removes(s.tasks[id].key, profile, number) && !s.tasks[id].terminal
  {
  }

  /** A revision can be deleted exactly if it exists, its profile is not built in, and nothing stands in the way. */
  lemma {:induction false} RevisionDeletedExactlyWhenFree(s: State, key: Key)
    requires Inv(s)
    ensures Works(DeleteRevisionStep(s, key)) <==>
      key in s.revisions && key.profile in s.profiles && !s.profiles[key.profile].builtin && Removable(s, key.profile, key.number)
    ensures if Works(DeleteRevisionStep(s, key)) then Removed(s, DeleteRevisionStep(s, key).0, key.profile, key.number)
            else DeleteRevisionStep(s, key).0 == s
  {
    OwnedRevisions(s);
    if key.profile != 0 {
      ArchivesExactlyWhenResolving(s, key.profile, key.number);
      BoundExactlyWhen(s, key.profile, key.number);
      UnfinishedExactlyWhen(s, key.profile, key.number);
    }
    hide Inv, Archives, Resolves, DetachAll, MaxNumber, HasBinding, Bound, HasActiveTask, Removed;
    if Works(DeleteRevisionStep(s, key)) { DetachingTasks(s, DeleteRevisionStep(s, key).0, key.profile, key.number); }
  }

  lemma {:induction false} BoundExactlyWhen(s: State, profile: ProfileId, number: int)
    ensures number != 0 ==> (HasBinding(s, Key(profile, number)) <==> exists id :: Bound(s, profile, number, id))
    ensures ProfileHasBinding(s, profile) <==> exists id :: Bound(s, profile, 0, id)
  {
    if number != 0 && HasBinding(s, Key(profile, number)) {
      var id :| id in s.bindings.bindings && BoundTo(s.bindings.bindings[id], Key(profile, number));
      assert Bound(s, profile, number, id);
    }
    if id :| Bound(s, profile, number, id) { assert number != 0 ==> BoundTo(s.bindings.bindings[id], Key(profile, number)); }
    if ProfileHasBinding(s, profile) {
      var id :| id in s.bindings.bindings && s.bindings.bindings[id].profile == profile;
      assert Bound(s, profile, 0, id);
    }
    if id :| Bound(s, profile, 0, id) { assert s.bindings.bindings[id].profile == profile; }
  }

  /** The same for a profile with all its revisions. */
  lemma {:induction false} ProfileDeletedExactlyWhenFree(s: State, profile: ProfileId)
    requires Inv(s)
    ensures Works(DeleteProfileStep(s, profile)) <==>
      profile != 0 && profile in s.profiles && !s.profiles[profile].builtin && Removable(s, profile, 0)
    ensures if Works(DeleteProfileStep(s, profile))
            then Removed(s, DeleteProfileStep(s, profile).0, profile, 0)
                 && DeleteProfileStep(s, profile).0.profiles == s.profiles - {profile}
            else DeleteProfileStep(s, profile).0 == s
  {
    OwnedRevisions(s);
    if profile != 0 {
      ArchivesExactlyWhenResolving(s, profile, 0);
      BoundExactlyWhen(s, profile, 0);
      UnfinishedExactlyWhen(s, profile, 0);
    }
    hide Inv, Archives, Resolves, DetachAll, MaxNumber, ProfileHasBinding, Bound, HasActiveTask, Removed;
    if Works(DeleteProfileStep(s, profile)) { DetachingTasks(s, DeleteProfileStep(s, profile).0, profile, 0); }
  }

  /** What a deletion gives as its reason: a built-in profile, else a binding, else an unfinished task, else a task whose
      protocol would be lost. */
  ghost predicate ReasonIs(s: State, profile: ProfileId, number: int, err: Option<Error>) {
    profile in s.profiles && err.Some? ==>
      var bound := exists id :: Bound(s, profile, number, id);
      var active := exists id :: id in s.tasks && Removes(s.tasks[id].key, profile, number) && !s.tasks[id].terminal;
      err.value == if s.profiles[profile].builtin then BuiltinImmutable
                   else if bound then HasBindings else if active then HasActiveTasks else SnapshotInvalid
  }

  lemma {:induction false} DeletionRefusalsSayWhy(s: State, key: Key)
    requires Inv(s)
    ensures var err := DeleteRevisionStep(s, key).1;
      && (err == Some(MissingIdentity) <==> Blank(key)) && (err == Some(NotFound) <==> !Blank(key) && key !in s.revisions)
      && (key in s.revisions ==> ReasonIs(s, key.profile, key.number, err))
    ensures var err := DeleteProfileStep(s, key.profile).1;
      && (err == Some(MissingIdentity) <==> key.profile == 0)
      && (err == Some(NotFound) <==> key.profile != 0 && key.profile !in s.profiles)
      && (key.profile != 0 ==> ReasonIs(s, key.profile, 0, err))
  {
    OwnedRevisions(s);
    BoundExactlyWhen(s, key.profile, key.number);
    UnfinishedExactlyWhen(s, key.profile, key.number);
    UnfinishedExactlyWhen(s, key.profile, 0);
    hide Inv, Archives, DetachAll, MaxNumber, HasBinding, ProfileHasBinding, Bound, HasActiveTask, Removes;
  }

  /** Tasks are created under free ids, and status writes and projections change the one task they name. */
  lemma {:induction false} TaskStepsAreLocal(s: State, id: TaskId, t: Task, terminal: bool)
    ensures var r := CreateTaskStep(s, id, t);
      r.1 == (if id in s.tasks then Some(AlreadyExists) else None) && r.0 == if Works(r) then s.(tasks := s.tasks[id := t]) else s
    ensures var r := ProjectTaskStep(s, id, t);
      r.1 == (if id in s.tasks then None else Some(NotFound)) && r.0 == if Works(r) then s.(tasks := s.tasks[id := t]) else s
    ensures var r := SetTerminalStep(s, id, terminal);
      && r.1 == (if id in s.tasks then None else Some(NotFound))
      && r.0 == if Works(r) then s.(tasks := s.tasks[id := s.tasks[id].(terminal := terminal)]) else s
  {
  }
}
