/** Crash-safe recovery of task routes (router/async_task_recovery.go): a write-ahead journal of registrations
    that could not be written to the database, its replay, acknowledgement and truncation.
    One event is what the code does under one hold of the queue's lock, or one database transaction; a crash
    may come between any two. */
module RecoveryJournal {
  import opened Wrappers
  import opened MappingCache
  import opened TaskMappings

  datatype Registration = Registration(channel: ChannelId, kind: string, aliasId: string, taskIds: seq<TaskId>)

  datatype Line = Upsert(registration: Registration) | Ack(key: Registration)

  /** How an append ends: done, failed without a trace, or failed at the sync with the line in the file. */
  datatype Append = Done | Lost | Kept

  datatype State = State(
    journal: seq<Line>,
    rows: Rows,
    // the process's memory
    loaded: bool,
    pending: map<Registration, bool>,  // true once journaled
    confirmed: set<Registration>,      // reported durable to a caller that may now publish it
    persisted: set<Registration>,      // written to the rows by a recovery pass
    cached: set<Registration>)

  predicate ValidRegistration(r: Registration) {
    && r.channel != "" && (r.kind == "video" || r.kind == "image") && r.taskIds != [] && ValidId(r.aliasId)
    && forall i :: 0 <= i < |r.taskIds| ==> ValidLookupId(r.taskIds[i], r.kind)
  }

  function Mappings(r: Registration): seq<Mapping> {
    seq(|r.taskIds|, i requires 0 <= i < |r.taskIds| => Mapping(r.taskIds[i], r.channel, r.kind, r.aliasId))
  }

  // ---------------------------------------------------------------- replay

  /** The registrations a restart finds in the journal. */
  function Replay(journal: seq<Line>): set<Registration> {
    if journal == [] then {}
    else
      var before := Replay(journal[..|journal| - 1]);
      match journal[|journal| - 1]
      case Upsert(r) => if ValidRegistration(r) then before + {r} else before
      case Ack(r) => before - {r}
  }

  /** A registration is replayed exactly when some valid upsert of it is not followed by its acknowledgement. */
  lemma {:induction false} ReplayIsUnacknowledged(journal: seq<Line>, r: Registration)
    ensures r in Replay(journal) <==>
            ValidRegistration(r) && exists i :: 0 <= i < |journal| && journal[i] == Upsert(r) && Ack(r) !in journal[i..]
  {
    if journal == [] {
    } else {
      var front, last := journal[..|journal| - 1], journal[|journal| - 1];
      ReplayIsUnacknowledged(front, r);
      hide Replay, ValidRegistration;
      if ValidRegistration(r) {
        forall i | 0 <= i < |front| ensures Ack(r) in journal[i..] <==> Ack(r) in front[i..] || last == Ack(r) {
          assert journal[i..] == front[i..] + [last];
        }
        if last == Upsert(r) { assert journal[|front|..] == [last]; }
        if i :| 0 <= i < |front| && front[i] == Upsert(r) && Ack(r) !in front[i..] { assert journal[i] == front[i]; }
        if i :| 0 <= i < |journal| && journal[i] == Upsert(r) && Ack(r) !in journal[i..] {
          assert i < |front| ==> front[i] == Upsert(r);
        }
      }
    }
  }

  // ---------------------------------------------------------------- the steps

  function Appended(journal: seq<Line>, line: Line, outcome: Append): seq<Line> {
    if outcome == Lost then journal else journal + [line]
  }

  /** Loading merges the replayed registrations into memory, once per process; it may fail. */
  function LoadStep(s: State, readable: bool): (State, bool) {
    if s.loaded then (s, true)
    else if !readable then (s, false)
    else
      var found := Replay(s.journal);
      (s.(loaded := true,
          pending := map r | r in s.pending.Keys + found :: if r in found then true else s.pending[r]), true)
  }

  /** The shared tail of Enqueue and ensureJournaled, for an item that is pending. */
  function JournalStep(s: State, ok: bool, r: Registration, outcome: Append): (State, bool)
    requires r in s.pending
  {
    if s.pending[r] then (if ok then s.(confirmed := s.confirmed + {r}) else s, ok)
    else
      var s1 := s.(journal := Appended(s.journal, Upsert(r), outcome));
      if outcome != Done || !ok then (s1, false)
      else (s1.(pending := s1.pending[r := true], confirmed := s1.confirmed + {r}), true)
  }

  /** The result says whether Enqueue returned true without an error. */
  function EnqueueStep(s: State, r: Registration, readable: bool, outcome: Append): (State, bool) {
    if !ValidRegistration(r) then (s, false)
    else
      var (s1, ok) := LoadStep(s, readable);
      JournalStep(if r in s1.pending then s1 else s1.(pending := s1.pending[r := false]), ok, r, outcome)
  }

  function EnsureJournaledStep(s: State, r: Registration, readable: bool, outcome: Append): (State, bool) {
    var (s1, ok) := LoadStep(s, readable);
    if r !in s1.pending then (s1, false) else JournalStep(s1, ok, r, outcome)
  }

  /** Publishing to the routing cache follows a durable answer, outside the lock. */
  function PublishStep(s: State, r: Registration): State {
    if r in s.confirmed then s.(cached := s.cached + {r}) else s
  }

  /** The database write of a recovery pass; `available` is whether the database answers in time. */
  function PersistStep(s: State, r: Registration, available: bool): (State, bool) {
    if !available then (s, false)
    else
      match Ensured(s.rows, Mappings(r))
      case Err(_) => (s, false)
      case Ok(w) => (s.(rows := w.rows, persisted := s.persisted + {r}), true)
  }

  datatype AckResult = Acked | NotPending | NotJournaled | AckFailed

  /** Acknowledges what a recovery pass has persisted; the last one empties the journal if the file lets it. */
  function AcknowledgeStep(s: State, r: Registration, readable: bool, outcome: Append, truncates: bool): (State, AckResult) {
    var (s1, ok) := LoadStep(s, readable);
    if !ok then (s1, AckFailed)
    else if r !in s1.pending then (s1, NotPending)
    else if !s1.pending[r] then (s1, NotJournaled)
    else
      var s2 := s1.(journal := Appended(s1.journal, Ack(r), outcome));
      if outcome != Done then (s2, AckFailed)
      else
        var s3 := s2.(pending := s2.pending - {r});
        (if |s3.pending| == 0 && truncates then s3.(journal := []) else s3, Acked)
  }

  /** Any other writer of routing rows, such as a request whose own write succeeds. */
  function OtherWriteStep(s: State, batch: seq<Mapping>): State {
    match Ensured(s.rows, batch)
    case Err(_) => s
    case Ok(w) => s.(rows := w.rows)
  }

  function CrashStep(s: State): State {
    s.(loaded := false, pending := map[], confirmed := {}, persisted := {}, cached := {})
  }

  datatype Event =
    | Enqueue(registration: Registration, readable: bool, outcome: Append)
    | EnsureJournaled(registration: Registration, readable: bool, outcome: Append)
    | PublishToCache(registration: Registration)
    | Persist(registration: Registration, available: bool)
    | Acknowledge(registration: Registration, readable: bool, outcome: Append, truncates: bool)
    | Load(readable: bool)
    | OtherWrite(batch: seq<Mapping>)
    | Crash

  /** A recovery pass acknowledges only what it has just persisted. */
  predicate Allowed(s: State, ev: Event) { ev.Acknowledge? ==> ev.registration in s.persisted }

  function Apply(s: State, ev: Event): State {
    match ev
    case Enqueue(r, readable, outcome) => EnqueueStep(s, r, readable, outcome).0
    case EnsureJournaled(r, readable, outcome) => EnsureJournaledStep(s, r, readable, outcome).0
    case PublishToCache(r) => PublishStep(s, r)
    case Persist(r, available) => PersistStep(s, r, available).0
    case Acknowledge(r, readable, outcome, truncates) => AcknowledgeStep(s, r, readable, outcome, truncates).0
    case Load(readable) => LoadStep(s, readable).0
    case OtherWrite(batch) => OtherWriteStep(s, batch)
    case Crash => CrashStep(s)
  }

  // ---------------------------------------------------------------- the invariant

  /** The database routes every task id of the registration as the registration says. */
  ghost predicate Stored(rows: Rows, r: Registration) { Routed(rows, Mappings(r)) }

  /** Nothing about the registration can be lost: a restart replays it, or the database already has it. */
  ghost predicate Safe(s: State, r: Registration) { r in Replay(s.journal) || Stored(s.rows, r) }

  /** What the process believes about its registrations is so. */
  ghost predicate Sound(s: State) {
    && Keyed(s.rows)
    && (forall r :: r in s.pending ==> ValidRegistration(r))
    && (forall r :: r in s.pending && s.pending[r] ==> s.loaded && Safe(s, r))
    && (forall r :: r in s.confirmed + s.cached ==> Safe(s, r))
    && (forall r :: r in s.persisted ==> Stored(s.rows, r))
  }

  /** A process that has loaded the journal knows everything a replay would find. */
  ghost predicate Tracked(s: State) { s.loaded ==> Replay(s.journal) <= s.pending.Keys }

  ghost predicate Inv(s: State) { Sound(s) && Tracked(s) }

  /** What every step keeps of what was safe and of what was routed. */
  ghost predicate Keeps(s: State, t: State) {
    && Keyed(t.rows)
    && (forall r :: Safe(s, r) ==> Safe(t, r))
    && (forall r :: Stored(s.rows, r) ==> Stored(t.rows, r))
    && RoutesKept(s.rows, t.rows)
  }

  /** No id loses its row or changes its route. */
  ghost predicate RoutesKept(before: Rows, after: Rows) {
    forall id :: id in before ==> id in after && SameRoute(before[id], after[id])
  }

  lemma {:induction false} AppendReplays(journal: seq<Line>, r: Registration)
    ensures Replay(journal + [Upsert(r)]) == Replay(journal) + (if ValidRegistration(r) then {r} else {})
    ensures Replay(journal + [Ack(r)]) == Replay(journal) - {r}
  {
    hide ValidRegistration;
    assert (journal + [Upsert(r)])[..|journal|] == journal;
    assert (journal + [Ack(r)])[..|journal|] == journal;
  }

  lemma {:induction false} LoadKeeps(s: State, readable: bool)
    requires Sound(s)
    ensures var (t, ok) := LoadStep(s, readable); Sound(t) && Keeps(s, t) && (ok ==> t.loaded) && (Tracked(s) ==> Tracked(t))
    ensures LoadStep(s, readable).0.(loaded := s.loaded, pending := s.pending) == s
  {
    hide Stored, Replay, ValidRegistration, Keyed;
    ReplayIsValid(s.journal);
  }

  lemma {:induction false} ReplayIsValid(journal: seq<Line>)
    ensures forall r :: r in Replay(journal) ==> ValidRegistration(r)
  {
    hide ValidRegistration;
    if journal == [] {
    } else {
      ReplayIsValid(journal[..|journal| - 1]);
    }
  }

  lemma {:induction false} JournalKeeps(s: State, ok: bool, r: Registration, outcome: Append)
    requires Sound(s) && r in s.pending && (ok ==> s.loaded)
    ensures var (t, durable) := JournalStep(s, ok, r, outcome);
      Sound(t) && Keeps(s, t) && (durable ==> Safe(t, r)) && (Tracked(s) ==> Tracked(t))
  {
    hide Stored, Replay, ValidRegistration, Keyed;
    AppendReplays(s.journal, r);
  }

  lemma {:induction false} EnqueueKeeps(s: State, r: Registration, readable: bool, outcome: Append)
    requires Sound(s)
    ensures var (t, durable) := EnqueueStep(s, r, readable, outcome);
      Sound(t) && Keeps(s, t) && (durable ==> Safe(t, r)) && (Tracked(s) ==> Tracked(t))
  {
    hide Sound, Tracked, Keeps, Safe, ValidRegistration, LoadStep, JournalStep;
    LoadKeeps(s, readable);
    var (s1, ok) := LoadStep(s, readable);
    if ValidRegistration(r) {
      var s2 := if r in s1.pending then s1 else s1.(pending := s1.pending[r := false]);
      if r !in s1.pending { TrackKeeps(s1, r); } else { KeepsItself(s1); }
      JournalKeeps(s2, ok, r, outcome);
      KeepsChain(s, s1, s2);
      KeepsChain(s, s2, JournalStep(s2, ok, r, outcome).0);
    } else {
      KeepsItself(s);
    }
  }

  lemma {:induction false} TrackKeeps(s: State, r: Registration)
    requires Sound(s) && ValidRegistration(r) && r !in s.pending
    ensures var t := s.(pending := s.pending[r := false]); Sound(t) && Keeps(s, t) && (Tracked(s) ==> Tracked(t))
  {
    hide Stored, Replay, Keyed, RoutesKept;
    SameRoutes(s.rows);
  }

  lemma {:induction false} EnsureJournaledKeeps(s: State, r: Registration, readable: bool, outcome: Append)
    requires Sound(s)
    ensures var (t, durable) := EnsureJournaledStep(s, r, readable, outcome);
      Sound(t) && Keeps(s, t) && (durable ==> Safe(t, r)) && (Tracked(s) ==> Tracked(t))
  {
    hide Sound, Tracked, Keeps, Safe, LoadStep, JournalStep;
    LoadKeeps(s, readable);
    var (s1, ok) := LoadStep(s, readable);
    if r in s1.pending {
      JournalKeeps(s1, ok, r, outcome);
      KeepsChain(s, s1, JournalStep(s1, ok, r, outcome).0);
    }
  }

  /** Writing any batch keeps what the rows already route. */
  lemma {:induction false} WriteKeepsRoutes(rows: Rows, batch: seq<Mapping>)
    requires Keyed(rows) && Ensured(rows, batch).Ok?
    ensures var after := Ensured(rows, batch).value.rows;
      Keyed(after) && RoutesKept(rows, after) && forall r :: Stored(rows, r) ==> Stored(after, r)
  {
    hide Ensured, Mappings;
    EnsurePins(rows, batch);
  }

  lemma {:induction false} PersistKeeps(s: State, r: Registration, available: bool)
    requires Sound(s)
    ensures var (t, stored) := PersistStep(s, r, available);
      Sound(t) && Keeps(s, t) && (stored ==> Stored(t.rows, r)) && (Tracked(s) ==> Tracked(t))
  {
    hide Ensured, Replay, ValidRegistration, Mappings, Keyed, RoutesKept, Stored;
    if Ensured(s.rows, Mappings(r)).Ok? {
      WrittenIsStored(s.rows, r);
      WriteKeepsRoutes(s.rows, Mappings(r));
    }
    SameRoutes(s.rows);
  }

  lemma {:induction false} SameRoutes(rows: Rows)
    ensures RoutesKept(rows, rows)
  {
  }

  lemma {:induction false} WrittenIsStored(rows: Rows, r: Registration)
    requires Keyed(rows) && Ensured(rows, Mappings(r)).Ok?
    ensures Keyed(Ensured(rows, Mappings(r)).value.rows) && Stored(Ensured(rows, Mappings(r)).value.rows, r)
  {
    EnsurePins(rows, Mappings(r));
  }

  lemma {:induction false} OtherWriteKeeps(s: State, batch: seq<Mapping>)
    requires Sound(s)
    ensures var t := OtherWriteStep(s, batch); Sound(t) && Keeps(s, t) && (Tracked(s) ==> Tracked(t))
  {
    hide Ensured, Replay, ValidRegistration, Mappings, Stored, Keyed, RoutesKept;
    if Ensured(s.rows, batch).Ok? { WriteKeepsRoutes(s.rows, batch); }
    SameRoutes(s.rows);
  }

  /** The acknowledgement is the last one the process knows of, and the file lets it be emptied. */
  predicate Empties(s: State, r: Registration, readable: bool, outcome: Append, truncates: bool) {
    var (s1, ok) := LoadStep(s, readable);
    ok && r in s1.pending && s1.pending[r] && outcome == Done && |s1.pending - {r}| == 0 && truncates
  }

  /** The step empties a file in which some registration is neither acknowledged nor stored. */
  ghost predicate Drops(s: State, ev: Event) {
    ev.Acknowledge? && Empties(s, ev.registration, ev.readable, ev.outcome, ev.truncates)
    && exists q :: q in Replay(s.journal + [Ack(ev.registration)]) && !Stored(s.rows, q)
  }

  /** An acknowledgement of a persisted registration loses nothing unless it drops a line. */
  lemma {:induction false} AcknowledgeIsSound(s: State, r: Registration, readable: bool, outcome: Append, truncates: bool)
    requires Sound(s) && r in s.persisted && !Drops(s, Acknowledge(r, readable, outcome, truncates))
    ensures var t := AcknowledgeStep(s, r, readable, outcome, truncates).0;
      Sound(t) && Keeps(s, t) && (Tracked(s) ==> Tracked(t))
  {
    hide Sound, Tracked, Keeps, Replay, LoadStep;
    LoadKeeps(s, readable);
    var (s1, ok) := LoadStep(s, readable);
    if ok && r in s1.pending && s1.pending[r] {
      var s2 := s1.(journal := Appended(s1.journal, Ack(r), outcome));
      AckLineKeeps(s1, r, outcome);
      KeepsChain(s, s1, s2);
      if outcome == Done {
        var s3 := s2.(pending := s2.pending - {r});
        ForgetKeeps(s2, r);
        KeepsChain(s, s2, s3);
        if |s3.pending| == 0 && truncates {
          EmptyKeeps(s3);
          KeepsChain(s, s3, s3.(journal := []));
        }
      }
    }
  }

  /** A process that knows everything in the file drops nothing. */
  lemma {:induction false} TrackedDropsNothing(s: State, ev: Event)
    requires Tracked(s)
    ensures !Drops(s, ev)
    ensures ev.Acknowledge? && Empties(s, ev.registration, ev.readable, ev.outcome, ev.truncates) ==>
      Replay(s.journal + [Ack(ev.registration)]) == {}
  {
    hide Stored;
    if ev.Acknowledge? {
      var r := ev.registration;
      AppendReplays(s.journal, r);
      hide Replay;
      var (s1, ok) := LoadStep(s, ev.readable);
      if ok && r in s1.pending && |s1.pending - {r}| == 0 {
        forall q | q in s1.pending ensures q == r {
          assert (s1.pending - {r}).Keys == {};
          assert q != r ==> q in s1.pending - {r};
        }
      }
    }
  }

  /** An acknowledgement of a persisted registration loses nothing, and the journal is emptied only when a
      replay of it would already find nothing. */
  lemma {:induction false} AcknowledgeKeeps(s: State, r: Registration, readable: bool, outcome: Append, truncates: bool)
    requires Inv(s) && r in s.persisted
    ensures var t := AcknowledgeStep(s, r, readable, outcome, truncates).0;
      Inv(t) && Keeps(s, t) && (t.journal == [] ==> s.journal == [] || Replay(s.journal + [Ack(r)]) == {})
  {
    TrackedDropsNothing(s, Acknowledge(r, readable, outcome, truncates));
    AcknowledgeIsSound(s, r, readable, outcome, truncates);
    hide Sound, Tracked, Keeps, Replay;
  }

  lemma {:induction false} AckLineKeeps(s: State, r: Registration, outcome: Append)
    requires Sound(s) && r in s.persisted
    ensures var t := s.(journal := Appended(s.journal, Ack(r), outcome));
      Sound(t) && Keeps(s, t) && (outcome == Done ==> r !in Replay(t.journal)) && (Tracked(s) ==> Tracked(t))
  {
    hide Stored, Replay, ValidRegistration, Keyed, RoutesKept;
    AppendReplays(s.journal, r);
    SameRoutes(s.rows);
  }

  lemma {:induction false} ForgetKeeps(s: State, r: Registration)
    requires Sound(s) && r !in Replay(s.journal)
    ensures var t := s.(pending := s.pending - {r}); Sound(t) && Keeps(s, t) && (Tracked(s) ==> Tracked(t))
  {
    hide Stored, Replay, ValidRegistration, Keyed, RoutesKept;
    SameRoutes(s.rows);
  }

  lemma {:induction false} EmptyKeeps(s: State)
    requires Sound(s) && forall q :: q in Replay(s.journal) ==> Stored(s.rows, q)
    ensures var t := s.(journal := []); Sound(t) && Keeps(s, t) && Tracked(t)
  {
    hide Stored, ValidRegistration, Keyed, RoutesKept;
    SameRoutes(s.rows);
  }

  lemma {:induction false} KeepsItself(s: State)
    requires Sound(s)
    ensures Keeps(s, s)
  {
  }

  lemma {:induction false} KeepsChain(s: State, t: State, u: State)
    requires Keeps(s, t) && Keeps(t, u)
    ensures Keeps(s, u)
  {
    hide Safe, Stored, Keyed;
  }

  lemma {:induction false} PublishKeeps(s: State, r: Registration)
    requires Sound(s)
    ensures var t := PublishStep(s, r); Sound(t) && Keeps(s, t) && (Tracked(s) ==> Tracked(t))
  {
    hide Stored, ValidRegistration, Keyed, Replay;
  }

  lemma {:induction false} CrashKeeps(s: State)
    requires Sound(s)
    ensures Sound(CrashStep(s)) && Keeps(s, CrashStep(s)) && Tracked(CrashStep(s))
  {
  }

  lemma {:induction false} ApplyIsSound(s: State, ev: Event)
    requires Sound(s) && Allowed(s, ev) && !Drops(s, ev)
    ensures Sound(Apply(s, ev)) && Keeps(s, Apply(s, ev)) && (Tracked(s) ==> Tracked(Apply(s, ev)))
  {
    hide EnqueueStep, EnsureJournaledStep, PersistStep, AcknowledgeStep, LoadStep, OtherWriteStep, CrashStep;
    hide Sound, Tracked, Keeps, Safe, Drops;
    match ev
    case Enqueue(r, readable, outcome) => EnqueueKeeps(s, r, readable, outcome);
    case EnsureJournaled(r, readable, outcome) => EnsureJournaledKeeps(s, r, readable, outcome);
    case PublishToCache(r) => PublishKeeps(s, r);
    case Persist(r, available) => PersistKeeps(s, r, available);
    case Acknowledge(r, readable, outcome, truncates) => AcknowledgeIsSound(s, r, readable, outcome, truncates);
    case Load(readable) => LoadKeeps(s, readable);
    case OtherWrite(batch) => OtherWriteKeeps(s, batch);
    case Crash => CrashKeeps(s);
  }

  lemma {:induction false} ApplyKeeps(s: State, ev: Event)
    requires Inv(s) && Allowed(s, ev)
    ensures Inv(Apply(s, ev)) && Keeps(s, Apply(s, ev))
  {
    hide Apply, Sound, Tracked, Keeps, Drops;
    TrackedDropsNothing(s, ev);
    ApplyIsSound(s, ev);
  }

  // ---------------------------------------------------------------- whole runs

  function Run(s: State, events: seq<Event>): State {
    if events == [] then s else Apply(Run(s, events[..|events| - 1]), events[|events| - 1])
  }

  ghost predicate Legal(s: State, events: seq<Event>) {
    forall i :: 0 <= i < |events| ==> Allowed(Run(s, events[..i]), events[i])
  }

  lemma {:induction false} LegalPrefix(s: State, events: seq<Event>)
    requires Legal(s, events) && events != []
    ensures Legal(s, events[..|events| - 1])
    ensures Allowed(Run(s, events[..|events| - 1]), events[|events| - 1])
  {
    hide Run, Allowed;
    var front := events[..|events| - 1];
    forall i | 0 <= i < |front| ensures Allowed(Run(s, front[..i]), front[i]) {
      assert front[..i] == events[..i] && front[i] == events[i];
    }
  }

  /** Over any interleaving and any crashes, a registration that was ever safe stays replayable or stored, and the
      cache never holds one that is neither. */
  lemma {:induction false} RunKeeps(s: State, events: seq<Event>)
    requires Inv(s) && Legal(s, events)
    ensures Inv(Run(s, events)) && Keeps(s, Run(s, events))
  {
    hide Apply, Allowed, Sound, Tracked, Keeps, Legal;
    if events == [] {
      KeepsItself(s);
    } else {
      LegalPrefix(s, events);
      var front := events[..|events| - 1];
      RunKeeps(s, front);
      ApplyKeeps(Run(s, front), events[|events| - 1]);
      KeepsChain(s, Run(s, front), Run(s, events));
    }
  }

  /** From an Enqueue that reports durability onward, nothing that follows can lose the registration. */
  lemma {:induction false} EnqueuedIsNeverLost(
    s: State, r: Registration, readable: bool, outcome: Append, events: seq<Event>)
    requires Inv(s) && EnqueueStep(s, r, readable, outcome).1
    requires Legal(EnqueueStep(s, r, readable, outcome).0, events)
    ensures var t := Run(EnqueueStep(s, r, readable, outcome).0, events);
            r in Replay(t.journal) || Stored(t.rows, r)
  {
    hide Sound, Tracked, EnqueueStep, Replay, Stored, Legal, Run;
    EnqueueKeeps(s, r, readable, outcome);
    RunKeeps(EnqueueStep(s, r, readable, outcome).0, events);
  }

  // ---------------------------------------------------------------- conflicts

  /** A stored row routes one of the registration's ids elsewhere. */
  predicate Conflicted(rows: Rows, r: Registration) { !Agrees(rows, Mappings(r)) }

  /** With the database answering, the write of a valid registration is refused exactly by a conflict. */
  lemma {:induction false} RefusedExactlyByConflict(rows: Rows, r: Registration)
    requires ValidRegistration(r)
    ensures Ensured(rows, Mappings(r)).Ok? <==> !Conflicted(rows, r)
  {
    hide Ensured, Agrees;
    EnsureSucceedsExactlyWhen(rows, Mappings(r));
    forall i | 0 <= i < |Mappings(r)| ensures WellFormed(Mappings(r)[i]) {
      LookupIdIsNotBlank(r.taskIds[i], r.kind);
    }
  }

  lemma {:induction false} LookupIdIsNotBlank(id: TaskId, kind: string)
    requires ValidLookupId(id, kind)
    ensures id != ""
  {
  }

  lemma {:induction false} ConflictIsNotStored(rows: Rows, r: Registration)
    requires Conflicted(rows, r)
    ensures !Stored(rows, r)
  {
  }

  lemma {:induction false} ConflictOutlivesWrites(before: Rows, after: Rows, r: Registration)
    requires RoutesKept(before, after) && Conflicted(before, r)
    ensures Conflicted(after, r)
  {
    hide Mappings;
    var ms := Mappings(r);
    var i :| 0 <= i < |ms| && ms[i].taskId in before && !SameRoute(before[ms[i].taskId], ms[i]);
    assert ms[i].taskId in after && !SameRoute(after[ms[i].taskId], ms[i]);
  }

  /** A journaled registration that conflicts with a stored route is never written over it, never acknowledged
      and never truncated away: it waits in the journal for an operator. */
  lemma {:induction false} ConflictStaysJournaled(s: State, events: seq<Event>, r: Registration)
    requires Inv(s) && Legal(s, events) && r in Replay(s.journal) && Conflicted(s.rows, r)
    ensures var t := Run(s, events); r in Replay(t.journal) && Conflicted(t.rows, r) && !Stored(t.rows, r)
  {
    hide Sound, Tracked, Replay, Stored, Conflicted, Legal, Run, RoutesKept, Keyed;
    RunKeeps(s, events);
    assert Safe(s, r);
    ConflictOutlivesWrites(s.rows, Run(s, events).rows, r);
    ConflictIsNotStored(Run(s, events).rows, r);
  }

  // ---------------------------------------------------------------- a whole recovery pass

  /** How the outside world answers while one registration is being recovered. */
  datatype Io = Io(readable: bool, upsert: Append, available: bool, readableAgain: bool, ack: Append, truncates: bool)

  predicate Works(io: Io) { io.upsert == Done && io.available && io.ack == Done && io.truncates }

  /** One round of the pass, for a registration of its snapshot. */
  function RecoverOne(s: State, r: Registration, journaled: bool, io: Io): State {
    var (s1, durable) := if journaled then (s, true) else EnsureJournaledStep(s, r, io.readable, io.upsert);
    if !durable then s1
    else
      var (s2, stored) := PersistStep(if journaled then s1 else PublishStep(s1, r), r, io.available);
      if !stored then s2 else AcknowledgeStep(s2, r, io.readableAgain, io.ack, io.truncates).0
  }

  function RecoverAll(s: State, order: seq<Registration>, snapshot: map<Registration, bool>, io: Registration -> Io): State
    requires forall r :: r in order ==> r in snapshot
  {
    if order == [] then s
    else
      var r := order[|order| - 1];
      RecoverOne(RecoverAll(s, order[..|order| - 1], snapshot, io), r, snapshot[r], io(r))
  }

  /** A round is made of allowed steps, so it keeps everything a run keeps. */
  lemma {:induction false} RecoverOneKeeps(s: State, r: Registration, journaled: bool, io: Io)
    requires Inv(s)
    ensures Inv(RecoverOne(s, r, journaled, io)) && Keeps(s, RecoverOne(s, r, journaled, io))
  {
    hide Sound, Tracked, Keeps, EnsureJournaledStep, AcknowledgeStep, PublishStep, Ensured, Safe, Stored;
    KeepsItself(s);
    EnsureJournaledKeeps(s, r, io.readable, io.upsert);
    var (s1, durable) := if journaled then (s, true) else EnsureJournaledStep(s, r, io.readable, io.upsert);
    PublishKeeps(s1, r);
    KeepsChain(s, s1, PublishStep(s1, r));
    var p := if journaled then s1 else PublishStep(s1, r);
    PersistKeeps(p, r, io.available);
    var (s2, stored) := PersistStep(p, r, io.available);
    KeepsChain(s, p, s2);
    if stored {
      AcknowledgeKeeps(s2, r, io.readableAgain, io.ack, io.truncates);
      KeepsChain(s, s2, AcknowledgeStep(s2, r, io.readableAgain, io.ack, io.truncates).0);
    }
  }

  /** With everything working, a round clears its registration exactly when no stored route conflicts. */
  lemma {:induction false} RecoverOneClears(s: State, r: Registration, journaled: bool, io: Io)
    requires Inv(s) && s.loaded && Works(io) && r in s.pending && (journaled ==> s.pending[r])
    ensures var t := RecoverOne(s, r, journaled, io);
      t.loaded &&
      if Conflicted(s.rows, r) then t.pending.Keys == s.pending.Keys && t.rows == s.rows && t.pending[r]
      else t.pending == s.pending - {r} && Stored(t.rows, r) && (t.pending == map[] ==> t.journal == [])
    ensures forall q :: q in s.pending && q != r && q in RecoverOne(s, r, journaled, io).pending ==>
      RecoverOne(s, r, journaled, io).pending[q] == s.pending[q]
  {
    hide Sound, Tracked, Ensured, Stored, Conflicted, Keyed, Mappings, EnsureJournaledStep, AcknowledgeStep, ValidRegistration;
    PendingIsValid(s, r);
    RefusedExactlyByConflict(s.rows, r);
    if Ensured(s.rows, Mappings(r)).Ok? { InvIsKeyed(s); WrittenIsStored(s.rows, r); }
    JournalWorks(s, r, io.readable);
    var p := if journaled then s else PublishStep(EnsureJournaledStep(s, r, io.readable, Done).0, r);
    assert p.pending == s.pending[r := true];
    AckWorks(PersistStep(p, r, true).0, r, io.readableAgain);
    assert s.pending[r := true] - {r} == s.pending - {r};
  }

  lemma {:induction false} JournalWorks(s: State, r: Registration, readable: bool)
    requires s.loaded && r in s.pending
    ensures var (t, durable) := EnsureJournaledStep(s, r, readable, Done);
      durable && t.loaded && t.rows == s.rows && t.pending == s.pending[r := true]
  {
  }

  lemma {:induction false} AckWorks(s: State, r: Registration, readable: bool)
    requires s.loaded && r in s.pending && s.pending[r]
    ensures var t := AcknowledgeStep(s, r, readable, Done, true).0;
      t.loaded && t.rows == s.rows && t.pending == s.pending - {r} && (t.pending == map[] ==> t.journal == [])
  {
  }

  lemma {:induction false} PendingIsValid(s: State, r: Registration)
    requires Inv(s) && r in s.pending
    ensures ValidRegistration(r)
  {
  }

  lemma {:induction false} InvIsKeyed(s: State)
    requires Inv(s)
    ensures Keyed(s.rows)
  {
  }

  ghost predicate Once(order: seq<Registration>) { forall i, j :: 0 <= i < j < |order| ==> order[i] != order[j] }

  /** What a pass over part of the pending registrations has settled so far. */
  ghost predicate Settles(s: State, t: State, order: seq<Registration>) {
    && t.loaded
    && (forall q :: q in t.pending ==> q in s.pending)
    && (forall q :: q in s.pending && q !in order ==> q in t.pending && t.pending[q] == s.pending[q])
    && (forall r :: r in order ==> (r in t.pending <==> Conflicted(t.rows, r)) && (r !in t.pending ==> Stored(t.rows, r)))
    && (order != [] && t.pending == map[] ==> t.journal == [])
  }

  lemma {:induction false} SettlesMore(s: State, t: State, u: State, front: seq<Registration>, r: Registration)
    requires Settles(s, t, front) && r !in front && r in s.pending
    requires RoutesKept(t.rows, u.rows) && (forall q :: Stored(t.rows, q) ==> Stored(u.rows, q)) && u.loaded
    requires if Conflicted(t.rows, r) then u.pending.Keys == t.pending.Keys && u.rows == t.rows
             else u.pending == t.pending - {r} && Stored(u.rows, r) && (u.pending == map[] ==> u.journal == [])
    requires forall q :: q in t.pending && q != r && q in u.pending ==> u.pending[q] == t.pending[q]
    ensures Settles(s, u, front + [r])
  {
    hide Conflicted, Stored, RoutesKept;
    forall q | q in front + [r]
      ensures (q in u.pending <==> Conflicted(u.rows, q)) && (q !in u.pending ==> Stored(u.rows, q))
    {
      assert q in front || q == r;
      if Conflicted(t.rows, q) { ConflictOutlivesWrites(t.rows, u.rows, q); }
      if Conflicted(u.rows, q) { ConflictIsNotStored(u.rows, q); }
    }
  }

  lemma {:induction false} PassSettles(
    s: State, order: seq<Registration>, snapshot: map<Registration, bool>, io: Registration -> Io)
    requires Inv(s) && s.loaded && Once(order)
    requires forall r :: r in order ==> r in s.pending && r in snapshot && snapshot[r] == s.pending[r] && Works(io(r))
    ensures var t := RecoverAll(s, order, snapshot, io); Inv(t) && Settles(s, t, order)
  {
    hide Inv, Settles, Conflicted, Stored, RecoverOne, Works, RoutesKept;
    if order == [] {
      NothingSettled(s);
    } else {
      var front, r := order[..|order| - 1], order[|order| - 1];
      assert order == front + [r] && r in order;
      PassSettles(s, front, snapshot, io);
      var t := RecoverAll(s, front, snapshot, io);
      UntouchedSoFar(s, t, front, r);
      RecoverOneKeeps(t, r, snapshot[r], io(r));
      RecoverOneClears(t, r, snapshot[r], io(r));
      SettlesMore(s, t, RecoverOne(t, r, snapshot[r], io(r)), front, r);
    }
  }

  lemma {:induction false} NothingSettled(s: State)
    requires s.loaded
    ensures Settles(s, s, [])
  {
  }

  lemma {:induction false} UntouchedSoFar(s: State, t: State, front: seq<Registration>, r: Registration)
    requires Settles(s, t, front) && r !in front && r in s.pending
    ensures t.loaded && r in t.pending && t.pending[r] == s.pending[r]
  {
  }

  /** A recovery pass over everything pending, with nothing failing, leaves pending exactly the registrations that
      conflict with a stored route; every other one is stored, and if none is left the journal is empty. */
  lemma {:induction false} RecoveryCompletes(s: State, order: seq<Registration>, io: Registration -> Io)
    requires Inv(s) && s.loaded && Once(order) && s.pending != map[]
    requires forall r :: r in order <==> r in s.pending
    requires forall r :: r in order ==> Works(io(r))
    ensures var t := RecoverAll(s, order, s.pending, io);
      && t.pending.Keys == (set r | r in s.pending && Conflicted(t.rows, r))
      && (forall r :: r in s.pending && !Conflicted(t.rows, r) ==> Stored(t.rows, r))
      && (t.pending == map[] ==> t.journal == [])
  {
    hide Inv, Conflicted, Stored, Works, RecoverAll;
    PassSettles(s, order, s.pending, io);
    assert order != [] by {
      var r :| r in s.pending;
      assert r in order;
    }
  }

  // ---------------------------------------------------------------- the queue, in place

  class RecoveryQueue {
    const store: TaskMappingStore
    var journal: seq<Line>
    var loaded: bool
    var pending: map<Registration, bool>
    ghost var confirmed: set<Registration>
    ghost var persisted: set<Registration>
    ghost var cached: set<Registration>

    ghost predicate Valid()
      reads this, store, store.cache
    {
      store.Valid()
    }

    ghost function Contents(): State
      reads this, store
    {
      State.State(journal, store.rows, loaded, pending, confirmed, persisted, cached)
    }

    constructor (store: TaskMappingStore, journal: seq<Line>)
      requires store.Valid()
      ensures Valid() && this.store == store
      ensures Contents() == State.State(journal, store.rows, false, map[], {}, {}, {})
    {
      this.store, this.journal, loaded, pending := store, journal, false, map[];
      confirmed, persisted, cached := {}, {}, {};
    }

    method Load(readable: bool) returns (ok: bool)
      requires Valid()
      modifies this
      ensures Valid() && (Contents(), ok) == LoadStep(old(Contents()), readable)
    {
      if loaded {
        return true;
      }
      if !readable {
        return false;
      }
      var found: map<Registration, bool> := map[];
      for i := 0 to |journal|
        invariant found.Keys == Replay(journal[..i]) && forall r :: r in found ==> found[r]
        invariant Contents() == old(Contents())
      {
        assert journal[..i + 1][..i] == journal[..i];
        match journal[i] {
          case Upsert(r) =>
            if ValidRegistration(r) {
              found := found[r := true];
            }
          case Ack(r) =>
            found := found - {r};
        }
      }
      assert journal[..|journal|] == journal;
      assert pending + found == map r | r in pending.Keys + Replay(journal) :: if r in Replay(journal) then true else pending[r];
      pending := pending + found;
      loaded := true;
      return true;
    }

    method Append(line: Line, outcome: Append) returns (ok: bool)
      modifies this`journal
      ensures journal == Appended(old(journal), line, outcome) && (ok <==> outcome == Done)
    {
      if outcome != Lost {
        journal := journal + [line];
      }
      return outcome == Done;
    }

    method Enqueue(r: Registration, readable: bool, outcome: Append) returns (durable: bool)
      requires Valid()
      modifies this
      ensures Valid() && (Contents(), durable) == EnqueueStep(old(Contents()), r, readable, outcome)
    {
      hide LoadStep, ValidRegistration;
      if !ValidRegistration(r) {
        return false;
      }
      var ok := Load(readable);
      if r !in pending {
        pending := pending[r := false];
      }
      durable := JournalPending(r, ok, outcome);
    }

    method JournalPending(r: Registration, ok: bool, outcome: Append) returns (durable: bool)
      requires Valid() && r in pending
      modifies this
      ensures Valid() && (Contents(), durable) == JournalStep(old(Contents()), ok, r, outcome)
    {
      if pending[r] {
        if ok {
          confirmed := confirmed + {r};
        }
        return ok;
      }
      var appended := Append(Upsert(r), outcome);
      if !appended || !ok {
        return false;
      }
      pending := pending[r := true];
      confirmed := confirmed + {r};
      return true;
    }

    method EnsureJournaled(r: Registration, readable: bool, outcome: Append) returns (durable: bool)
      requires Valid()
      modifies this
      ensures Valid() && (Contents(), durable) == EnsureJournaledStep(old(Contents()), r, readable, outcome)
    {
      hide LoadStep;
      var ok := Load(readable);
      if r !in pending {
        return false;
      }
      durable := JournalPending(r, ok, outcome);
    }

    method Publish(r: Registration, now: Time)
      requires Valid() && r in confirmed
      modifies this`cached, store.cache
      ensures Valid() && Contents() == PublishStep(old(Contents()), r)
    {
      store.PublishEach(Mappings(r), now);
      cached := cached + {r};
    }

    method Persist(r: Registration, available: bool, now: Time) returns (stored: bool)
      requires Valid()
      modifies this`persisted, store, store.cache
      ensures Valid() && (Contents(), stored) == PersistStep(old(Contents()), r, available)
    {
      hide Ensured, Mappings;
      if !available {
        return false;
      }
      var err := store.Ensure(Mappings(r), now);
      if err.Some? {
        return false;
      }
      persisted := persisted + {r};
      return true;
    }

    method Acknowledge(r: Registration, readable: bool, outcome: Append, truncates: bool) returns (result: AckResult)
      requires Valid()
      modifies this
      ensures Valid() && (Contents(), result) == AcknowledgeStep(old(Contents()), r, readable, outcome, truncates)
    {
      hide LoadStep, Linked;
      var ok := Load(readable);
      if !ok {
        return AckFailed;
      }
      if r !in pending {
        return NotPending;
      }
      if !pending[r] {
        return NotJournaled;
      }
      var appended := Append(Ack(r), outcome);
      if !appended {
        return AckFailed;
      }
      pending := pending - {r};
      if |pending| == 0 && truncates {
        journal := [];
      }
      return Acked;
    }

    /** Defers a write that failed: journal first, cache only once that is durable. A conflict is only reported. */
    method Defer(r: Registration, conflict: bool, readable: bool, outcome: Append, now: Time) returns (durable: bool)
      requires Valid()
      modifies this, store.cache
      ensures Valid() && (conflict ==> !durable && Contents() == old(Contents()))
      ensures !conflict ==> (durable <==> EnqueueStep(old(Contents()), r, readable, outcome).1)
      ensures !conflict ==> var s := EnqueueStep(old(Contents()), r, readable, outcome).0;
        Contents() == if durable then PublishStep(s, r) else s
    {
      hide LoadStep, ValidRegistration;
      if conflict {
        return false;
      }
      durable := Enqueue(r, readable, outcome);
      if durable {
        Publish(r, now);
      }
    }

    method RecoverItem(r: Registration, journaled: bool, io: Io, now: Time)
      requires Valid()
      modifies this, store, store.cache
      ensures Valid() && Contents() == RecoverOne(old(Contents()), r, journaled, io)
    {
      hide LoadStep, Ensured, AcknowledgeStep;
      if !journaled {
        var durable := EnsureJournaled(r, io.readable, io.upsert);
        if !durable {
          return;
        }
        Publish(r, now);
      }
      var stored := Persist(r, io.available, now);
      if !stored {
        return;
      }
      var _ := Acknowledge(r, io.readableAgain, io.ack, io.truncates);
    }

    /** One recovery pass over a snapshot of what is pending, in any order, cut short when the caller gives up. */
    method Reconcile(readable: bool, io: Registration -> Io, budget: nat, now: Time)
      returns (order: seq<Registration>, ok: bool)
      requires Valid()
      modifies this, store, store.cache
      ensures Valid() && Once(order) && ok == LoadStep(old(Contents()), readable).1
      ensures var s := LoadStep(old(Contents()), readable).0;
        && (forall r :: r in order ==> r in s.pending)
        && (ok && |order| < budget ==> forall r :: r in s.pending ==> r in order)
        && Contents() == RecoverAll(s, order, s.pending, io)
    {
      hide LoadStep, RecoverOne;
      ok := Load(readable);
      order := [];
      if !ok {
        return;
      }
      var snapshot := pending;
      var todo := pending.Keys;
      ghost var start := Contents();
      while todo != {} && |order| < budget
        invariant Valid() && Once(order) && start.pending == snapshot
        invariant forall r :: r in snapshot <==> r in order || r in todo
        invariant forall r :: r in order ==> r !in todo
        invariant Contents() == RecoverAll(start, order, snapshot, io)
        decreases todo
      {
        var r :| r in todo;
        todo := todo - {r};
        RecoverItem(r, snapshot[r], io(r), now);
        assert (order + [r])[..|order|] == order;
        order := order + [r];
      }
    }
  }
}
