/** What the steps of `RecoveryJournal` do, said without its step functions: exactly when a registration becomes durable,
    what is written to the file for it, and what a restart then finds. */
module JournalEffects {
  import opened Wrappers
  import opened RecoveryJournal
  import MappingCache
  import TaskMappings

  /** The journal is in memory, or can be read now. */
  predicate Readable(s: State, readable: bool) { s.loaded || readable }

  /** A process that has the journal in memory knows the registration to be in it, or a replay finds it there. */
  predicate InJournal(s: State, r: Registration, readable: bool) {
    (r in s.pending && s.pending[r]) || (!s.loaded && readable && r in Replay(s.journal))
  }

  /** What the file gains by one append. */
  predicate Gains(before: seq<Line>, after: seq<Line>, line: Line, outcome: Append) {
    after == if outcome.Lost? then before else before + [line]
  }

  /** A load works exactly when the journal is in memory or readable. A first one brings every replayed registration into
      memory as journaled and leaves the rest of the memory as it was; a second one changes nothing. */
  lemma {:induction false} LoadBringsTheReplay(s: State, readable: bool)
    ensures var (t, ok) := LoadStep(s, readable);
      && (ok <==> Readable(s, readable)) && (s.loaded || !readable ==> t == s)
      && (ok ==> t.loaded) && t == s.(loaded := t.loaded, pending := t.pending)
      && (!s.loaded && readable ==>
            && t.pending.Keys == s.pending.Keys + Replay(s.journal)
            && (forall r :: r in Replay(s.journal) ==> t.pending[r])
            && (forall r :: r in s.pending && r !in Replay(s.journal) ==> t.pending[r] == s.pending[r]))
  {
    hide Replay;
  }

  /** What journaling a registration that is pending does. */
  ghost predicate Journals(s: State, t: State, durable: bool, r: Registration, readable: bool, outcome: Append) {
    && (durable <==> Readable(s, readable) && (outcome == Done || InJournal(s, r, readable)))
    && (if InJournal(s, r, readable) then t.journal == s.journal else Gains(s.journal, t.journal, Upsert(r), outcome))
    && r in t.pending && (t.pending[r] <==> durable)
    && t.rows == s.rows && t.confirmed == (if durable then s.confirmed + {r} else s.confirmed)
    && t.persisted == s.persisted && t.cached == s.cached
    && (forall q :: q != r ==> (q in t.pending <==> q in LoadStep(s, readable).0.pending)
                               && (q in t.pending ==> t.pending[q] == LoadStep(s, readable).0.pending[q]))
  }

  /** Enqueue reports a valid registration as durable exactly when the journal is in memory or readable, and the append
      works or the registration is in the file already; then it is pending as journaled, and replayable or stored. An
      append is made exactly if it is not in the file. An invalid registration is refused and changes nothing. */
  lemma {:induction false} EnqueueIsDurableExactlyWhen(s: State, r: Registration, readable: bool, outcome: Append)
    requires Inv(s)
    ensures var (t, durable) := EnqueueStep(s, r, readable, outcome);
      if ValidRegistration(r) then Journals(s, t, durable, r, readable, outcome) && (durable ==> Safe(t, r))
      else !durable && t == s
  {
    EnqueueKeeps(s, r, readable, outcome);
    InJournalIsJournaled(s, r, readable);
    hide Inv, Sound, Tracked, Keeps, Safe, ValidRegistration, Replay, LoadStep, InJournal;
    if ValidRegistration(r) {
      var s1 := LoadStep(s, readable).0;
      JournalingAfterLoad(s, r, readable, outcome, if r in s1.pending then s1 else s1.(pending := s1.pending[r := false]));
      hide JournalStep, Journals;
    }
  }

  lemma {:induction false} InJournalIsJournaled(s: State, r: Registration, readable: bool)
    requires Inv(s)
    ensures var s1 := LoadStep(s, readable).0; InJournal(s, r, readable) <==> r in s1.pending && s1.pending[r]
    ensures InJournal(s, r, readable) ==> Readable(s, readable)
  {
    LoadBringsTheReplay(s, readable);
    PendingIsLoaded(s);
    hide Inv, Replay, LoadStep;
  }

  lemma {:induction false} JournalingAfterLoad(s: State, r: Registration, readable: bool, outcome: Append, s2: State)
    requires r in s2.pending && (s2.pending[r] <==> InJournal(s, r, readable))
    requires InJournal(s, r, readable) ==> Readable(s, readable)
    requires var s1 := LoadStep(s, readable).0; s2 == s1 || (r !in s1.pending && s2 == s1.(pending := s1.pending[r := false]))
    ensures var (t, durable) := JournalStep(s2, LoadStep(s, readable).1, r, outcome);
      Journals(s, t, durable, r, readable, outcome)
  {
    LoadBringsTheReplay(s, readable);
    hide Replay, LoadStep, InJournal;
    JournalingDoes(s2, LoadStep(s, readable).1, r, outcome);
    hide JournalStep;
  }

  lemma {:induction false} PendingIsLoaded(s: State)
    requires Inv(s)
    ensures forall r :: r in s.pending && s.pending[r] ==> s.loaded
  {
    hide Safe, ValidRegistration, Replay, Stored;
  }

  lemma {:induction false} JournalingDoes(s: State, ok: bool, r: Registration, outcome: Append)
    requires r in s.pending
    ensures var (t, durable) := JournalStep(s, ok, r, outcome);
      && (durable <==> ok && (outcome == Done || s.pending[r]))
      && (if s.pending[r] then t.journal == s.journal else Gains(s.journal, t.journal, Upsert(r), outcome))
      && t.pending == s.pending[r := s.pending[r] || durable]
      && t == s.(journal := t.journal, pending := t.pending, confirmed := if durable then s.confirmed + {r} else s.confirmed)
  {
  }

  /** Making sure of a pending registration does the same; one that is not pending is left out. */
  lemma {:induction false} EnsureJournaledIsDurableExactlyWhen(s: State, r: Registration, readable: bool, outcome: Append)
    requires Inv(s)
    ensures var (t, durable) := EnsureJournaledStep(s, r, readable, outcome);
      if r in s.pending || InJournal(s, r, readable) then Journals(s, t, durable, r, readable, outcome) && (durable ==> Safe(t, r))
      else !durable && t == LoadStep(s, readable).0
  {
    EnsureJournaledKeeps(s, r, readable, outcome);
    InJournalIsJournaled(s, r, readable);
    LoadBringsTheReplay(s, readable);
    var s1 := LoadStep(s, readable).0;
    if r in s1.pending { JournalingAfterLoad(s, r, readable, outcome, s1); }
    hide Inv, Sound, Tracked, Keeps, Safe, Replay, LoadStep, JournalStep, Journals;
  }

  /** Every Enqueue of something new appends it, however many there were before; a crash and a restart later it is pending
      and known to be in the file. */
  lemma {:induction false} RestartFindsIt(s: State, r: Registration, readable: bool)
    requires Inv(s) && ValidRegistration(r) && Readable(s, readable)
    ensures var (t, durable) := EnqueueStep(s, r, readable, Done);
      && durable && (!InJournal(s, r, readable) ==> t.journal == s.journal + [Upsert(r)])
      && (r in Replay(t.journal) || Stored(t.rows, r))
      && (!InJournal(s, r, readable) ==>
            var u := LoadStep(CrashStep(t), true).0; r in u.pending && u.pending[r] && u.rows == t.rows)
  {
    EnqueueIsDurableExactlyWhen(s, r, readable, Done);
    var t := EnqueueStep(s, r, readable, Done).0;
    LoadBringsTheReplay(CrashStep(t), true);
    AppendReplays(s.journal, r);
    hide Inv, ValidRegistration, Replay, EnqueueStep, LoadStep, Stored;
  }

  /** A registration is acknowledged exactly when the journal is in memory or readable, it is pending and known to be in
      the file, and the append works; it is then neither pending nor replayed, and the file is emptied exactly when it was
      the last one and the file lets it. Other answers say what was missing, and nothing is forgotten. */
  lemma {:induction false} AcknowledgedExactlyWhen(s: State, r: Registration, readable: bool, outcome: Append, truncates: bool)
    requires Inv(s)
    ensures var (t, result) := AcknowledgeStep(s, r, readable, outcome, truncates);
      var known := LoadStep(s, readable).0.pending;
      && (result == Acked <==> Readable(s, readable) && InJournal(s, r, readable) && outcome == Done)
      && (result == NotPending <==> Readable(s, readable) && r !in known)
      && (result == NotJournaled <==> Readable(s, readable) && r in known && !known[r])
      && (result == Acked ==>
            && t.pending == known - {r} && r !in Replay(t.journal)
            && t.journal == (if known.Keys == {r} && truncates then [] else s.journal + [Ack(r)]))
      && (result != Acked ==> t.pending == known && (t.journal == s.journal || t.journal == s.journal + [Ack(r)]))
      && t.rows == s.rows && t.confirmed == s.confirmed && t.persisted == s.persisted && t.cached == s.cached
  {
    LoadBringsTheReplay(s, readable);
    InJournalIsJournaled(s, r, readable);
    hide Inv, Replay, LoadStep, InJournal;
    if Readable(s, readable) { AcknowledgingDoes(LoadStep(s, readable).0, r, outcome, truncates, readable); }
    LoadedStays(s, readable);
    hide AcknowledgeStep;
  }

  /** Acknowledging in a process that has the journal in memory, or has just failed to read it. */
  lemma {:induction false} AcknowledgingDoes(s: State, r: Registration, outcome: Append, truncates: bool, readable: bool)
    requires s.loaded
    ensures var (t, result) := AcknowledgeStep(s, r, readable, outcome, truncates);
      && (result == Acked <==> r in s.pending && s.pending[r] && outcome == Done)
      && (result == NotPending <==> r !in s.pending) && (result == NotJournaled <==> r in s.pending && !s.pending[r])
      && (result == Acked ==>
            && t.pending == s.pending - {r} && r !in Replay(t.journal)
            && t.journal == (if s.pending.Keys == {r} && truncates then [] else s.journal + [Ack(r)]))
      && (result != Acked ==> t.pending == s.pending && (t.journal == s.journal || t.journal == s.journal + [Ack(r)]))
      && t == s.(journal := t.journal, pending := t.pending)
  {
    AppendReplays(s.journal, r);
    NothingReplays();
    hide Replay;
    assert (s.pending - {r}).Keys == s.pending.Keys - {r};
    if r in s.pending { OnlyKey(s.pending.Keys, r); }
  }

  lemma {:induction false} OnlyKey(keys: set<Registration>, r: Registration)
    requires r in keys
    ensures |keys - {r}| == 0 <==> keys == {r}
  {
    assert keys == (keys - {r}) + {r};
  }

  /** Loading first and then acknowledging is acknowledging. */
  lemma {:induction false} LoadedStays(s: State, readable: bool)
    ensures var (t, ok) := LoadStep(s, readable);
      forall r, outcome, truncates :: AcknowledgeStep(s, r, readable, outcome, truncates) ==
        if ok then AcknowledgeStep(t, r, readable, outcome, truncates) else (t, AckFailed)
  {
    hide Replay, Appended;
  }

  lemma {:induction false} NothingReplays()
    ensures Replay([]) == {}
  {
  }

  /** A recovery pass stores a valid registration exactly when the database answers and no stored route conflicts; only
      rows change, and otherwise nothing does. */
  lemma {:induction false} PersistedExactlyWhen(s: State, r: Registration, available: bool)
    requires Inv(s) && ValidRegistration(r)
    ensures var (t, stored) := PersistStep(s, r, available);
      && (stored <==> available && !Conflicted(s.rows, r))
      && (if stored then Stored(t.rows, r) && t == s.(rows := t.rows, persisted := s.persisted + {r}) else t == s)
  {
    RefusedExactlyByConflict(s.rows, r);
    PersistKeeps(s, r, available);
    hide Inv, Sound, Tracked, Keeps, ValidRegistration, Conflicted, Stored, TaskMappings.Ensured, Mappings;
  }

  /** Only what was reported durable is published, and a crash forgets everything but the file and the rows. */
  lemma {:induction false} PublishedExactlyWhenConfirmed(s: State, r: Registration)
    ensures var t := PublishStep(s, r);
      t == s.(cached := t.cached) && t.cached == if r in s.confirmed then s.cached + {r} else s.cached
    ensures var t := CrashStep(s);
      t.journal == s.journal && t.rows == s.rows && !t.loaded && t.pending == map[]
      && t.confirmed == {} && t.persisted == {} && t.cached == {}
  {
  }

  /** A process that has the journal in memory takes a registration exactly if it is complete: a channel, a kind it knows,
      and ids that can be looked up. */
  lemma {:induction false} TakenExactlyWhenComplete(s: State, r: Registration, readable: bool, outcome: Append)
    requires s.loaded && r !in s.pending
    ensures r in EnqueueStep(s, r, readable, outcome).0.pending <==>
      && r.channel != "" && r.kind in {"video", "image"} && r.taskIds != [] && TaskMappings.ValidId(r.aliasId)
      && (forall i :: 0 <= i < |r.taskIds| ==> TaskMappings.ValidLookupId(r.taskIds[i], r.kind))
  {
    hide TaskMappings.ValidId, TaskMappings.ValidLookupId;
  }

  /** What another writer stores is there from then on: if it gives an id of a registration to another channel, a recovery
      pass no longer stores that registration, and nothing but the rows has changed. */
  lemma {:induction false} OthersMayConflict(s: State, batch: seq<MappingCache.Mapping>, r: Registration, i: nat, k: nat)
    requires Inv(s) && ValidRegistration(r) && TaskMappings.Ensured(s.rows, batch).Ok?
    requires i < |batch| && k < |r.taskIds| && batch[i].taskId == r.taskIds[k] && batch[i].channel != r.channel
    ensures var t := OtherWriteStep(s, batch); t == s.(rows := t.rows) && !PersistStep(t, r, true).1
  {
    var t := OtherWriteStep(s, batch);
    TaskMappings.EnsurePins(s.rows, batch);
    assert Mappings(r)[k].taskId in t.rows && t.rows[Mappings(r)[k].taskId].channel != r.channel;
    RefusedExactlyByConflict(t.rows, r);
    hide ValidRegistration, TaskMappings.Ensured;
  }
}
