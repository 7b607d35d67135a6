/** Several processes on one recovery journal (router/async_task_recovery.go): each has the queue of `RecoveryJournal`
    in its own memory, and they share the file and the database. The queue's lock orders the steps of one process, not
    those of two. */
module JournalRaces {
  import opened RecoveryJournal
  import opened Wrappers
  import TaskMappingEffects
  import TaskMappings

  type ProcessId = nat
  type Rows = TaskMappings.Rows

  /** What a process holds in memory. */
  datatype Memory = Memory(
    loaded: bool,
    pending: map<Registration, bool>,
    confirmed: set<Registration>,
    persisted: set<Registration>,
    cached: set<Registration>)

  const EMPTY_MEMORY: Memory := Memory(false, map[], {}, {}, {})

  datatype World = World(journal: seq<Line>, rows: Rows, memories: map<ProcessId, Memory>)

  datatype Step = Step(process: ProcessId, event: Event)

  function MemoryOf(w: World, p: ProcessId): Memory { if p in w.memories then w.memories[p] else EMPTY_MEMORY }

  /** The journal, the rows and its own memory: what the queue of one process works on. */
  function View(w: World, p: ProcessId): State {
    var m := MemoryOf(w, p);
    State(w.journal, w.rows, m.loaded, m.pending, m.confirmed, m.persisted, m.cached)
  }

  function WithView(w: World, p: ProcessId, s: State): World {
    World(s.journal, s.rows, w.memories[p := Memory(s.loaded, s.pending, s.confirmed, s.persisted, s.cached)])
  }

  function ApplyTo(w: World, step: Step): World { WithView(w, step.process, Apply(View(w, step.process), step.event)) }

  function RunAll(w: World, steps: seq<Step>): World {
    if steps == [] then w else ApplyTo(RunAll(w, steps[..|steps| - 1]), steps[|steps| - 1])
  }

  // ---------------------------------------------------------------- what is safe

  /** A restart of any process replays the registration, or the database already has it. */
  ghost predicate SafeIn(w: World, r: Registration) { r in Replay(w.journal) || Stored(w.rows, r) }

  ghost predicate AllSound(w: World) { forall p :: Sound(View(w, p)) }

  predicate LegalStep(w: World, step: Step) { Allowed(View(w, step.process), step.event) }

  /** The step empties the file while some registration in it is neither acknowledged nor stored. */
  ghost predicate DropsIn(w: World, step: Step) { Drops(View(w, step.process), step.event) }

  ghost predicate LosesNothing(w: World, v: World) { forall r :: SafeIn(w, r) ==> SafeIn(v, r) }

  lemma {:induction false} SafeInIsSafe(w: World, p: ProcessId, r: Registration)
    ensures SafeIn(w, r) <==> Safe(View(w, p), r)
  {
  }

  /** A step of one process leaves the others sound, although it changes the file and the rows under them. */
  lemma {:induction false} OthersStaySound(w: World, step: Step, q: ProcessId)
    requires AllSound(w) && LegalStep(w, step) && !DropsIn(w, step)
    ensures Sound(View(ApplyTo(w, step), q))
  {
    hide Apply, Drops, Stored, TaskMappings.Keyed, RoutesKept, Allowed, ValidRegistration, Replay;
    var s, before := View(w, step.process), View(w, q);
    assert Sound(s) && Sound(before);
    ApplyIsSound(s, step.event);
    var t, after := Apply(s, step.event), View(ApplyTo(w, step), q);
    if q == step.process {
      assert after == t;
    } else {
      assert after == before.(journal := t.journal, rows := t.rows);
      forall r | Safe(before, r) ensures Safe(after, r) {
        assert Safe(s, r) && Safe(t, r);
      }
    }
  }

  lemma {:induction false} EmptyingDrops(s: State, ev: Event)
    requires Drops(s, ev)
    ensures exists r :: Safe(s, r) && !Safe(Apply(s, ev), r)
  {
    hide Stored;
    var q :| q in Replay(s.journal + [Ack(ev.registration)]) && !Stored(s.rows, q);
    AppendReplays(s.journal, ev.registration);
    assert Safe(s, q) && !Safe(Apply(s, ev), q);
  }

  /** A step loses a registration that was safe exactly when it drops a line. */
  lemma {:induction false} StepLosesExactlyWhenItDrops(w: World, step: Step)
    requires AllSound(w) && LegalStep(w, step)
    ensures LosesNothing(w, ApplyTo(w, step)) <==> !DropsIn(w, step)
    ensures !DropsIn(w, step) ==> AllSound(ApplyTo(w, step))
  {
    hide Apply, Drops, Sound, Allowed, Safe, SafeIn;
    var s, v := View(w, step.process), ApplyTo(w, step);
    assert Sound(s);
    forall r ensures SafeIn(w, r) <==> Safe(s, r) { SafeInIsSafe(w, step.process, r); }
    forall r ensures SafeIn(v, r) <==> Safe(Apply(s, step.event), r) {
      SafeInIsSafe(v, step.process, r);
      assert View(v, step.process) == Apply(s, step.event);
    }
    if DropsIn(w, step) {
      EmptyingDrops(s, step.event);
    } else {
      ApplyIsSound(s, step.event);
      forall q ensures Sound(View(v, q)) { OthersStaySound(w, step, q); }
    }
  }

  // ---------------------------------------------------------------- whole runs

  ghost predicate AllLegal(w: World, steps: seq<Step>) {
    forall i :: 0 <= i < |steps| ==> LegalStep(RunAll(w, steps[..i]), steps[i])
  }

  ghost predicate NeverLoses(w: World, steps: seq<Step>) {
    forall i :: 0 <= i < |steps| ==> LosesNothing(RunAll(w, steps[..i]), ApplyTo(RunAll(w, steps[..i]), steps[i]))
  }

  ghost predicate NeverDrops(w: World, steps: seq<Step>) {
    forall i :: 0 <= i < |steps| ==> !DropsIn(RunAll(w, steps[..i]), steps[i])
  }

  lemma {:induction false} RunLast(w: World, front: seq<Step>, step: Step)
    ensures RunAll(w, front + [step]) == ApplyTo(RunAll(w, front), step)
  {
    hide ApplyTo;
    assert (front + [step])[..|front|] == front;
  }

  lemma {:induction false} RunsSplit(w: World, front: seq<Step>, step: Step)
    ensures AllLegal(w, front + [step]) <==> AllLegal(w, front) && LegalStep(RunAll(w, front), step)
    ensures NeverLoses(w, front + [step]) <==>
            NeverLoses(w, front) && LosesNothing(RunAll(w, front), ApplyTo(RunAll(w, front), step))
    ensures NeverDrops(w, front + [step]) <==> NeverDrops(w, front) && !DropsIn(RunAll(w, front), step)
  {
    hide RunAll, ApplyTo, LegalStep, LosesNothing, DropsIn;
    var steps := front + [step];
    assert steps[..|front|] == front && steps[|front|] == step;
    assert forall i :: 0 <= i < |front| ==> steps[i] == front[i] && steps[..i] == front[..i];
  }

  lemma {:induction false} RunStaysSound(w: World, steps: seq<Step>)
    requires AllSound(w) && AllLegal(w, steps) && NeverDrops(w, steps)
    ensures AllSound(RunAll(w, steps)) && LosesNothing(w, RunAll(w, steps))
  {
    hide ApplyTo, AllSound, LegalStep, DropsIn, SafeIn;
    if steps == [] {
    } else {
      var front, step := steps[..|steps| - 1], steps[|steps| - 1];
      assert steps == front + [step];
      RunsSplit(w, front, step);
      RunStaysSound(w, front);
      StepLosesExactlyWhenItDrops(RunAll(w, front), step);
    }
  }

  /** Over any interleaving of any number of processes and crashes, no registration that was replayable or stored is
      ever lost exactly when no process empties the file over a line that is neither acknowledged nor stored. */
  lemma {:induction false} NothingIsLostExactlyWhenNothingIsDropped(w: World, steps: seq<Step>)
    requires AllSound(w) && AllLegal(w, steps)
    ensures NeverLoses(w, steps) <==> NeverDrops(w, steps)
  {
    hide ApplyTo, AllSound, LegalStep, DropsIn, LosesNothing;
    if steps == [] {
    } else {
      var front, step := steps[..|steps| - 1], steps[|steps| - 1];
      assert steps == front + [step];
      RunsSplit(w, front, step);
      NothingIsLostExactlyWhenNothingIsDropped(w, front);
      if NeverDrops(w, front) {
        RunStaysSound(w, front);
        StepLosesExactlyWhenItDrops(RunAll(w, front), step);
      }
    }
  }

  /** What one process was told is durable, the others keep as well, unless one of them drops it. */
  lemma {:induction false} DurableForAll(
    w: World, p: ProcessId, r: Registration, readable: bool, outcome: Append, steps: seq<Step>)
    requires AllSound(w) && EnqueueStep(View(w, p), r, readable, outcome).1
    requires var v := ApplyTo(w, Step(p, Enqueue(r, readable, outcome))); AllLegal(v, steps) && NeverDrops(v, steps)
    ensures SafeIn(RunAll(ApplyTo(w, Step(p, Enqueue(r, readable, outcome))), steps), r)
  {
    hide RunAll, AllLegal, NeverDrops, Sound, EnqueueStep, Safe, SafeIn;
    var step := Step(p, Enqueue(r, readable, outcome));
    var v := ApplyTo(w, step);
    assert Sound(View(w, p));
    EnqueueKeeps(View(w, p), r, readable, outcome);
    StepLosesExactlyWhenItDrops(w, step);
    assert View(v, p) == EnqueueStep(View(w, p), r, readable, outcome).0;
    SafeInIsSafe(v, p, r);
    RunStaysSound(v, steps);
  }

  // ---------------------------------------------------------------- one process after another

  ghost predicate AllTracked(w: World) { forall p :: Tracked(View(w, p)) }

  /** No other process has the journal loaded. */
  ghost predicate OnlyOne(w: World, step: Step) { forall q :: q != step.process ==> !MemoryOf(w, q).loaded }

  lemma {:induction false} AloneStaysTracked(w: World, step: Step)
    requires AllSound(w) && AllTracked(w) && LegalStep(w, step) && OnlyOne(w, step)
    ensures !DropsIn(w, step) && AllTracked(ApplyTo(w, step))
  {
    hide Apply, Drops, Sound, Allowed;
    var s, v := View(w, step.process), ApplyTo(w, step);
    assert Sound(s) && Tracked(s);
    TrackedDropsNothing(s, step.event);
    ApplyIsSound(s, step.event);
    forall q ensures Tracked(View(v, q)) {
      if q == step.process {
        assert View(v, q) == Apply(s, step.event);
      } else {
        assert MemoryOf(v, q) == MemoryOf(w, q);
      }
    }
  }

  /** Processes that run one after another, each crashing or not before the next loads the journal, lose nothing. */
  lemma {:induction false} OneAfterAnotherDropsNothing(w: World, steps: seq<Step>)
    requires AllSound(w) && AllTracked(w) && AllLegal(w, steps)
    requires forall i :: 0 <= i < |steps| ==> OnlyOne(RunAll(w, steps[..i]), steps[i])
    ensures NeverDrops(w, steps) && AllTracked(RunAll(w, steps))
  {
    hide ApplyTo, AllSound, AllTracked, LegalStep, DropsIn, OnlyOne, LosesNothing;
    if steps == [] {
    } else {
      var front, step := steps[..|steps| - 1], steps[|steps| - 1];
      assert steps == front + [step];
      forall i | 0 <= i < |front| ensures OnlyOne(RunAll(w, front[..i]), front[i]) {
        assert steps[..i] == front[..i] && steps[i] == front[i];
      }
      RunsSplit(w, front, step);
      OneAfterAnotherDropsNothing(w, front);
      RunStaysSound(w, front);
      assert OnlyOne(RunAll(w, steps[..|front|]), steps[|front|]) && steps[..|front|] == front;
      AloneStaysTracked(RunAll(w, front), step);
    }
  }

  // ---------------------------------------------------------------- a truncation under another process

  /** Process 0 has loaded an empty journal and recovers `own`; meanwhile process 1 is told that `other` is durable,
      and crashes after process 0 has acknowledged its last item and emptied the file. */
  function Overtaken(own: Registration, other: Registration): seq<Step> {
    [Step(0, Enqueue(own, true, Done)), Step(0, Persist(own, true)), Step(1, Enqueue(other, true, Done)),
     Step(0, Acknowledge(own, true, Done, true)), Step(1, Crash)]
  }

  /** The database answers a first registration on empty tables, and stores nothing of another one. */
  lemma {:induction false} FirstWrite(own: Registration, other: Registration)
    requires ValidRegistration(own) && ValidRegistration(other) && other.taskIds[0] !in own.taskIds
    ensures var written := TaskMappings.Ensured(map[], Mappings(own)); written.Ok? && !Stored(written.value.rows, other)
  {
    RefusedExactlyByConflict(map[], own);
    hide ValidRegistration, TaskMappings.Ensured;
    var rows := TaskMappings.Ensured(map[], Mappings(own)).value.rows;
    TaskMappingEffects.WritesOnlyItsIds(map[], Mappings(own), other.taskIds[0]);
    assert Mappings(other)[0].taskId !in rows;
  }

  lemma {:induction false} RunFive(w: World, a: Step, b: Step, c: Step, d: Step, e: Step)
    ensures RunAll(w, [a, b]) == ApplyTo(ApplyTo(w, a), b)
    ensures RunAll(w, [a, b, c]) == ApplyTo(RunAll(w, [a, b]), c)
    ensures RunAll(w, [a, b, c, d, e]) == ApplyTo(ApplyTo(ApplyTo(RunAll(w, [a, b]), c), d), e)
  {
    hide ApplyTo;
    RunLast(w, [], a);
    RunLast(w, [a], b);
    RunLast(w, [a, b], c);
    RunLast(w, [a, b, c], d);
    RunLast(w, [a, b, c, d], e);
    assert [] + [a] == [a] && [a] + [b] == [a, b] && [a, b] + [c] == [a, b, c];
    assert [a, b, c] + [d] == [a, b, c, d] && [a, b, c, d] + [e] == [a, b, c, d, e];
  }

  /** An Enqueue with nothing failing, in a process that has just started. */
  lemma {:induction false} FreshEnqueue(s: State, r: Registration)
    requires ValidRegistration(r) && !s.loaded && s.pending == map[]
    ensures var (t, durable) := EnqueueStep(s, r, true, Done);
      && durable && t.rows == s.rows && t.loaded && t.persisted == s.persisted
      && (s.journal == [] ==> t.pending == map[r := true])
  {
    hide ValidRegistration;
  }

  /** Acknowledging the only item a process knows of empties the file, whatever it holds. */
  lemma {:induction false} LastAckEmpties(s: State, r: Registration)
    requires s.loaded && s.pending == map[r := true]
    ensures var t := AcknowledgeStep(s, r, true, Done, true).0; t.journal == [] && t.rows == s.rows
  {
    assert s.pending - {r} == map[];
  }

  lemma {:induction false} StepChangesItsView(w: World, step: Step)
    ensures var v, t := ApplyTo(w, step), Apply(View(w, step.process), step.event);
      && View(v, step.process) == t && v.journal == t.journal && v.rows == t.rows
      && forall q :: q != step.process ==> MemoryOf(v, q) == MemoryOf(w, q)
  {
    hide Apply;
  }

  lemma {:induction false} OwnIsPersisted(own: Registration)
    requires ValidRegistration(own) && TaskMappings.Ensured(map[], Mappings(own)).Ok?
    ensures var s := Apply(Apply(View(World([], map[], map[]), 0), Enqueue(own, true, Done)), Persist(own, true));
      && s.loaded && s.pending == map[own := true] && s.persisted == {own}
      && s.rows == TaskMappings.Ensured(map[], Mappings(own)).value.rows
  {
    hide ValidRegistration, EnqueueStep, Mappings, TaskMappings.Ensured;
    FreshEnqueue(View(World([], map[], map[]), 0), own);
  }

  /** Process 1 starts and is told its registration is durable; process 0 then empties the file, and process 1 goes. */
  lemma {:induction false} EmptiedUnder(w: World, own: Registration, other: Registration)
    requires ValidRegistration(other) && MemoryOf(w, 1) == EMPTY_MEMORY
    requires View(w, 0).loaded && View(w, 0).pending == map[own := true] && own in View(w, 0).persisted
    ensures var step := Step(1, Enqueue(other, true, Done));
      var v := ApplyTo(ApplyTo(ApplyTo(w, step), Step(0, Acknowledge(own, true, Done, true))), Step(1, Crash));
      v.journal == [] && v.rows == w.rows
    ensures EnqueueStep(View(w, 1), other, true, Done).1
    ensures LegalStep(ApplyTo(w, Step(1, Enqueue(other, true, Done))), Step(0, Acknowledge(own, true, Done, true)))
  {
    hide ValidRegistration, EnqueueStep, AcknowledgeStep, ApplyTo, Replay;
    var enqueue, acknowledge := Step(1, Enqueue(other, true, Done)), Step(0, Acknowledge(own, true, Done, true));
    StepChangesItsView(w, enqueue);
    FreshEnqueue(View(w, 1), other);
    var w1 := ApplyTo(w, enqueue);
    assert View(w1, 0) == View(w, 0).(journal := w1.journal);
    LastAckEmpties(View(w1, 0), own);
    StepChangesItsView(w1, acknowledge);
    StepChangesItsView(ApplyTo(w1, acknowledge), Step(1, Crash));
  }

  /** Only an acknowledgement can be illegal. */
  lemma {:induction false} OvertakenIsLegal(w: World, own: Registration, other: Registration)
    requires LegalStep(RunAll(w, Overtaken(own, other)[..3]), Overtaken(own, other)[3])
    ensures AllLegal(w, Overtaken(own, other))
  {
    hide RunAll;
    assert forall i :: 0 <= i < 5 && i != 3 ==> !Overtaken(own, other)[i].event.Acknowledge?;
  }

  lemma {:induction false} NothingYet()
    ensures var w := World([], map[], map[]); AllSound(w) && AllTracked(w)
  {
  }

  /** The registration that process 1 was told is durable is then neither in the file nor stored. */
  lemma {:induction false} TruncationDropsLine(own: Registration, other: Registration)
    requires ValidRegistration(own) && ValidRegistration(other) && other.taskIds[0] !in own.taskIds
    ensures var w, steps := World([], map[], map[]), Overtaken(own, other);
      && EnqueueStep(View(RunAll(w, steps[..2]), 1), other, true, Done).1
      && AllSound(w) && AllTracked(w) && AllLegal(w, steps) && !SafeIn(RunAll(w, steps), other)
  {
    NothingYet();
    FirstWrite(own, other);
    OwnIsPersisted(own);
    var w, steps := World([], map[], map[]), Overtaken(own, other);
    RunFive(w, steps[0], steps[1], steps[2], steps[3], steps[4]);
    assert steps[..2] == [steps[0], steps[1]] && steps[..3] == [steps[0], steps[1], steps[2]];
    hide RunAll, ValidRegistration, TaskMappings.Ensured, Mappings, Stored, EnqueueStep, Apply, ApplyTo;
    hide AllSound, AllTracked, AllLegal, LegalStep;
    StepChangesItsView(w, steps[0]);
    StepChangesItsView(ApplyTo(w, steps[0]), steps[1]);
    EmptiedUnder(RunAll(w, steps[..2]), own, other);
    OvertakenIsLegal(w, own, other);
  }
}
