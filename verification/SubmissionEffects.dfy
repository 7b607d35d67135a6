/** What callers of `Submission` are told: how a repeated key is answered, that a recorded outcome is final, and that a
    request on its own is reserved, submitted, recorded and answered. */
module SubmissionEffects {
  import opened Wrappers
  import opened Submission

  // ---------------------------------------------------------------- how a key is answered

  /** The call's row is there and is the only one under its key and operation. */
  ghost predicate OnlyRow(rows: map<Call, RowState>, call: Call) {
    call in rows && forall c :: c in rows && c.slot == call.slot ==> c == call
  }

  /** A key is answered by its rows: nothing known, the caller's own accepted submission, the caller's own submission of
      another state, or a conflict with somebody else's request. */
  lemma {:induction false} AnsweredByItsRows(rows: map<Call, RowState>, call: Call)
    ensures LookUp(rows, call) == None <==> forall c :: c in rows ==> c.slot != call.slot
    ensures LookUp(rows, call) == Some(Reused(Accepted)) <==> OnlyRow(rows, call) && rows[call] == Accepted
    ensures LookUp(rows, call) == Some(InProgress) <==> OnlyRow(rows, call) && rows[call] != Accepted
    ensures LookUp(rows, call) == Some(Conflict) <==>
      (exists c :: c in rows && c.slot == call.slot) && !OnlyRow(rows, call)
  {
    var found := Matching(rows, call.slot);
    assert forall c :: c in found <==> c in rows && c.slot == call.slot;
    if found == {call} { assert forall c :: c in rows && c.slot == call.slot ==> c == call; }
    if OnlyRow(rows, call) { assert found == {call}; }
  }

  /** The answer a thread is on its way to give, or has given. */
  function Answer(p: Phase): Option<Submission.Result> {
    match p
    case Dropping(_, result) => Some(result)
    case Done(result) => Some(result)
    case _ => None
  }

  /** The reason a thread's answer gives is the state it was decided in. */
  ghost predicate Justified(s: State, ev: Event, call: Call, result: Submission.Result) {
    match result
    case Reused(row) => row == Accepted && OnlyRow(s.rows, call) && s.rows[call] == Accepted
    case Conflict => exists c :: c in s.rows && c.slot == call.slot && c != call
    case InProgress => call in s.rows && (ev.Reserve? || s.rows[call] != Accepted)
    case Failed => ev.Cancel? || ev.Abandon? || (ev.Reserve? && !ev.available && call !in s.rows)
    case NoRoute => ev.GiveUpRouting?
    case Answered => ev.Finish?
  }

  lemma {:induction false} AnswersAreJustified(s: State, ev: Event, tid: ThreadId)
    requires tid in s.threads && Answer(s.threads[tid].phase) == None
    requires tid in Apply(s, ev).threads && Answer(Apply(s, ev).threads[tid].phase).Some?
    ensures Justified(s, ev, s.threads[tid].call, Answer(Apply(s, ev).threads[tid].phase).value)
  {
    AnsweredByItsRows(s.rows, s.threads[tid].call);
    hide LookUp, EnterLocks, DropLocks, SetHeld;
    if LookUp(s.rows, s.threads[tid].call) == Some(Conflict) { OthersConflict(s.rows, s.threads[tid].call); }
  }

  lemma {:induction false} OthersConflict(rows: map<Call, RowState>, call: Call)
    requires (exists c :: c in rows && c.slot == call.slot) && !OnlyRow(rows, call)
    ensures exists c :: c in rows && c.slot == call.slot && c != call
  {
  }

  /** No thread replays anything but an accepted submission. */
  ghost predicate ReplaysAccepted(s: State) {
    forall tid, row :: tid in s.threads && Answer(s.threads[tid].phase) == Some(Reused(row)) ==> row == Accepted
  }

  lemma {:induction false} StepReplaysAccepted(s: State, ev: Event)
    requires ReplaysAccepted(s)
    ensures ReplaysAccepted(Apply(s, ev))
  {
    hide EnterLocks, DropLocks, SetHeld, Matching;
  }

  /** In every reachable state only accepted submissions are replayed. */
  lemma {:induction false} OnlyAcceptedIsReplayed(events: seq<Event>)
    ensures ReplaysAccepted(Run(Initial(), events))
  {
    if events == [] {
    } else {
      hide Apply, ReplaysAccepted;
      OnlyAcceptedIsReplayed(events[..|events| - 1]);
      StepReplaysAccepted(Run(Initial(), events[..|events| - 1]), events[|events| - 1]);
    }
  }

  // ---------------------------------------------------------------- a recorded outcome is final

  predicate InFlight(t: Thread) { t.phase.Sending? || t.phase.Sent? }

  /** A submission in flight is recorded as such, and is the only one of its request. */
  ghost predicate InFlightOnce(s: State) {
    && (forall tid :: tid in s.threads && InFlight(s.threads[tid]) ==>
          s.threads[tid].call in s.rows && s.rows[s.threads[tid].call] == Submitting)
    && (forall i, j :: i in s.threads && j in s.threads && SameFlight(s.threads[i], s.threads[j]) ==> i == j)
  }

  predicate SameFlight(a: Thread, b: Thread) { InFlight(a) && InFlight(b) && a.call == b.call }

  /** Rows stay, and an outcome other than "submitting" stays what it is. */
  ghost predicate OutcomesKept(s: State, t: State) {
    forall c :: c in s.rows ==> c in t.rows && (s.rows[c] != Submitting ==> t.rows[c] == s.rows[c])
  }

  /** A step that moves one thread between phases that are both in flight or both not, or drops threads. */
  lemma {:induction false} FlightsKept(s: State, t: State)
    requires InFlightOnce(s) && t.rows == s.rows
    requires forall tid :: tid in t.threads && InFlight(t.threads[tid]) ==>
      tid in s.threads && InFlight(s.threads[tid]) && s.threads[tid].call == t.threads[tid].call
    ensures InFlightOnce(t) && OutcomesKept(s, t)
  {
    forall i, j | i in t.threads && j in t.threads && SameFlight(t.threads[i], t.threads[j]) ensures i == j {
      assert SameFlight(s.threads[i], s.threads[j]);
    }
  }

  lemma {:induction false} ReservationTakesOff(s: State, tid: ThreadId, item: ItemId)
    requires InFlightOnce(s) && tid in s.threads && s.threads[tid].phase == Reserving(item) && s.threads[tid].call !in s.rows
    ensures var t := MoveTo(s, tid, Sending(item)).(rows := s.rows[s.threads[tid].call := Submitting]);
      InFlightOnce(t) && OutcomesKept(s, t)
  {
    var t := MoveTo(s, tid, Sending(item)).(rows := s.rows[s.threads[tid].call := Submitting]);
    forall i, j | i in t.threads && j in t.threads && SameFlight(t.threads[i], t.threads[j]) ensures i == j {
      if i != tid && j != tid { assert SameFlight(s.threads[i], s.threads[j]); }
    }
  }

  lemma {:induction false} RecordLands(s: State, tid: ThreadId, item: ItemId, outcome: Option<RowState>)
    requires InFlightOnce(s) && tid in s.threads && s.threads[tid].phase == Sent(item)
    ensures var t := ThreadStep(s, tid, Record(tid, outcome));
      && InFlightOnce(t) && OutcomesKept(s, t) && t.log == s.log && t.threads[tid].phase == Recorded(item)
      && t.rows == if outcome.Some? then s.rows[s.threads[tid].call := outcome.value] else s.rows
  {
    var t := ThreadStep(s, tid, Record(tid, outcome));
    forall i, j | i in t.threads && j in t.threads && SameFlight(t.threads[i], t.threads[j]) ensures i == j {
      assert SameFlight(s.threads[i], s.threads[j]);
    }
    forall i | i in t.threads && InFlight(t.threads[i]) ensures t.threads[i].call != s.threads[tid].call {
      assert !SameFlight(s.threads[i], s.threads[tid]);
    }
  }

  lemma {:induction false} StepKeepsOutcomes(s: State, ev: Event)
    requires InFlightOnce(s)
    ensures InFlightOnce(Apply(s, ev)) && OutcomesKept(s, Apply(s, ev))
  {
    hide InFlightOnce, OutcomesKept, LookUp, EnterLocks, DropLocks, SetHeld;
    var t := Apply(s, ev);
    if ev.Record? && ev.tid in s.threads && s.threads[ev.tid].phase.Sent? {
      RecordLands(s, ev.tid, s.threads[ev.tid].phase.item, ev.outcome);
    } else if t.rows != s.rows {
      ReservationTakesOff(s, ev.tid, s.threads[ev.tid].phase.item);
    } else {
      FlightsKept(s, t);
    }
  }

  lemma {:induction false} RunKeepsOutcomes(s: State, events: seq<Event>)
    requires InFlightOnce(s)
    ensures InFlightOnce(Run(s, events)) && OutcomesKept(s, Run(s, events))
  {
    hide Apply, InFlightOnce;
    if events == [] {
    } else {
      RunKeepsOutcomes(s, events[..|events| - 1]);
      StepKeepsOutcomes(Run(s, events[..|events| - 1]), events[|events| - 1]);
    }
  }

  lemma {:induction false} NothingInFlight()
    ensures InFlightOnce(Initial())
  {
  }

  /** Over every interleaving and crash, once the outcome of a submission has been recorded it never changes again. */
  lemma {:induction false} RecordedOutcomeIsFinal(first: seq<Event>, later: seq<Event>, call: Call)
    requires var s := Run(Initial(), first); call in s.rows && s.rows[call] != Submitting
    ensures var s, t := Run(Initial(), first), Run(Initial(), first + later); call in t.rows && t.rows[call] == s.rows[call]
  {
    NothingInFlight();
    RunKeepsOutcomes(Initial(), first);
    RunKeepsOutcomes(Run(Initial(), first), later);
    RunThen(Initial(), first, later);
    hide Run;
  }

  /** Once a submission was recorded as accepted, every later repetition of the same request is answered with it and every
      other request under its key with a conflict, for as long as requests with different bodies do not contend for it. */
  lemma {:induction false} RepetitionsAreAnswered(first: seq<Event>, later: seq<Event>, tid: ThreadId, call: Call)
    requires NeverContended(first + later)
    requires var s := Run(Initial(), first); call in s.rows && s.rows[call] == Accepted
    requires var t := Run(Initial(), first + later);
      tid in t.threads && t.threads[tid].phase == Fresh && t.threads[tid].call.slot == call.slot
    ensures var t := Run(Initial(), first + later);
      Apply(t, FirstLookup(tid)).threads[tid].phase ==
        Done(if t.threads[tid].call == call then Reused(Accepted) else Conflict)
  {
    RecordedOutcomeIsFinal(first, later, call);
    UncontendedRunIsOrderly(first + later, Crash(0));
    hide Run, LookUp, NeverContended;
    AnsweredByItsRows(Run(Initial(), first + later).rows, Run(Initial(), first + later).threads[tid].call);
  }

  // ---------------------------------------------------------------- one request from end to end

  /** The request reserves, submits, records acceptance, and gives its lock back. */
  function Departure(tid: ThreadId): seq<Event> {
    [Reserve(tid, true), SubmitToProvider(tid, true), Record(tid, Some(Accepted)), Finish(tid), Drop(tid)]
  }

  lemma {:induction false} Departs(s: State, tid: ThreadId, item: ItemId, key: LockKey)
    requires tid in s.threads && s.threads[tid].phase == Reserving(item) && s.threads[tid].call !in s.rows
    requires key == KeyOf(s.threads[tid]) && item in s.locks.cells && s.locks.cells[item].refs == 1
    ensures var t := Run(s, Departure(tid));
      && t.threads == s.threads[tid := s.threads[tid].(phase := Done(Answered))]
      && t.rows == s.rows[s.threads[tid].call := Accepted]
      && t.log == s.log + [Submit(s.threads[tid].process, s.threads[tid].call)]
      && t.locks.items == s.locks.items - {key} && item in t.locks.cells && !t.locks.cells[item].held
  {
    var d, me := Departure(tid), s.threads[tid];
    RunFour(s, d[0], d[1], d[2], d[3]);
    RunLast(s, [d[0], d[1], d[2], d[3]], d[4]);
    assert d == [d[0], d[1], d[2], d[3]] + [d[4]];
    ReservesSubmitsRecords(s, tid, item);
    var s3 := s.(threads := s.threads[tid := me.(phase := Recorded(item))], rows := s.rows[me.call := Accepted],
                 log := s.log + [Submit(me.process, me.call)]);
    hide Run, Apply;
    GivesBack(s3, tid, item, key);
    assert s.threads[tid := me.(phase := Recorded(item))][tid := me.(phase := Done(Answered))] ==
           s.threads[tid := me.(phase := Done(Answered))];
  }

  lemma {:induction false} ReservesSubmitsRecords(s: State, tid: ThreadId, item: ItemId)
    requires tid in s.threads && s.threads[tid].phase == Reserving(item) && s.threads[tid].call !in s.rows
    ensures var me := s.threads[tid];
      Apply(Apply(Apply(s, Reserve(tid, true)), SubmitToProvider(tid, true)), Record(tid, Some(Accepted))) ==
      s.(threads := s.threads[tid := me.(phase := Recorded(item))], rows := s.rows[me.call := Accepted],
         log := s.log + [Submit(me.process, me.call)])
  {
    hide LookUp, EnterLocks, DropLocks, SetHeld;
    var me := s.threads[tid];
    var s1 := Apply(s, Reserve(tid, true));
    assert s1 == s.(threads := s.threads[tid := me.(phase := Sending(item))], rows := s.rows[me.call := Submitting]);
    var s2 := Apply(s1, SubmitToProvider(tid, true));
    assert s2 == s1.(threads := s.threads[tid := me.(phase := Sent(item))], log := s.log + [Submit(me.process, me.call)]);
  }

  lemma {:induction false} GivesBack(s: State, tid: ThreadId, item: ItemId, key: LockKey)
    requires tid in s.threads && s.threads[tid].phase == Recorded(item) && key == KeyOf(s.threads[tid])
    requires item in s.locks.cells && s.locks.cells[item].refs == 1
    ensures var t := Apply(Apply(s, Finish(tid)), Drop(tid));
      && t.threads == s.threads[tid := s.threads[tid].(phase := Done(Answered))]
      && t.rows == s.rows && t.log == s.log
      && t.locks.items == s.locks.items - {key} && item in t.locks.cells && !t.locks.cells[item].held
  {
    hide LookUp, EnterLocks;
    var s1 := Apply(s, Finish(tid));
    assert s1 == MoveTo(s, tid, Dropping(item, Answered)).(locks := SetHeld(s.locks, item, false));
  }

  /** A request under a key nobody has used, in a process where nobody else is using it, is submitted once, recorded as
      accepted and answered, and leaves no lock behind. */
  lemma {:induction false} FirstRequestGoesThrough(s: State, tid: ThreadId, process: ProcessId, call: Call)
    requires tid !in s.threads && process !in s.dead && LockKey(process, call.slot) !in s.locks.items
    requires LookUp(s.rows, call) == None
    ensures var t := Run(s, Arrival(tid, process, call) + Departure(tid));
      && t.threads == s.threads[tid := Thread(process, call, Done(Answered))] && t.rows == s.rows[call := Accepted]
      && t.log == s.log + [Submit(process, call)] && t.locks.items == s.locks.items
  {
    Arrives(s, tid, process, call);
    AnsweredByItsRows(s.rows, call);
    RunThen(s, Arrival(tid, process, call), Departure(tid));
    hide LookUp, Run;
    var key := LockKey(process, call.slot);
    Departs(Run(s, Arrival(tid, process, call)), tid, s.locks.next, key);
    assert s.locks.items[key := s.locks.next] - {key} == s.locks.items;
  }

  ghost predicate Down(s: State, process: ProcessId) {
    process in s.dead && forall tid :: tid in s.threads ==> s.threads[tid].process != process
  }

  lemma {:induction false} StaysDown(s: State, ev: Event, process: ProcessId)
    requires Down(s, process)
    ensures Down(Apply(s, ev), process)
  {
    hide LookUp, EnterLocks, DropLocks, SetHeld;
  }

  /** A crash leaves what the database and the other processes have alone, and its process never does anything again:
      whoever comes after it is another one, with a lock table of its own. */
  lemma {:induction false} CrashedStaysDown(s: State, process: ProcessId, events: seq<Event>)
    ensures var t := Apply(s, Crash(process));
      && t.rows == s.rows && t.log == s.log && t.dead == s.dead + {process}
      && (forall tid :: tid in s.threads && s.threads[tid].process != process ==>
            tid in t.threads && t.threads[tid] == s.threads[tid])
      && (forall k :: k in s.locks.items && k.process != process ==> k in t.locks.items && t.locks.items[k] == s.locks.items[k])
    ensures Down(Run(Apply(s, Crash(process)), events), process)
  {
    var t := Apply(s, Crash(process));
    assert Down(t, process);
    if events == [] {
    } else {
      CrashedStaysDown(s, process, events[..|events| - 1]);
      hide Apply, Down;
      StaysDown(Run(t, events[..|events| - 1]), events[|events| - 1], process);
    }
  }

  /** A request that gives up writes nothing and sends nothing. Before it has a lock it only ends; waiting for one, it gives
      its reference back; and with one, it frees it first. */
  lemma {:induction false} GivingUpLeavesNothing(s: State, tid: ThreadId)
    requires tid in s.threads
    ensures var me, gone := s.threads[tid], Apply(s, GiveUpRouting(tid));
      var left, freed := Apply(s, Cancel(tid)), Apply(s, Abandon(tid));
      && (me.phase.Routed? ==> gone == s.(threads := s.threads[tid := me.(phase := Done(NoRoute))]))
      && (me.phase.Waiting? && me.phase.item in s.locks.cells ==>
            && left == s.(threads := s.threads[tid := me.(phase := Done(Failed))], locks := left.locks)
            && left.locks.cells.Keys == s.locks.cells.Keys
            && left.locks.cells[me.phase.item].refs == s.locks.cells[me.phase.item].refs - 1
            && left.locks.items == if left.locks.cells[me.phase.item].refs == 0 then s.locks.items - {KeyOf(me)} else s.locks.items)
      && ((me.phase.Holding? || me.phase.Reserving?) && me.phase.item in s.locks.cells ==>
            && freed == s.(threads := s.threads[tid := me.(phase := Dropping(me.phase.item, Failed))], locks := freed.locks)
            && freed.locks == s.locks.(cells := freed.locks.cells) && freed.locks.cells.Keys == s.locks.cells.Keys
            && freed.locks.cells[me.phase.item] == s.locks.cells[me.phase.item].(held := false))
  {
    hide LookUp, EnterLocks;
  }
}
