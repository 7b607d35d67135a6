/** At-most-once paid submission (router/profile_idempotency.go, router/profile_execution.go): concurrent requests
    of any number of processes, each looking up, locking, reserving a durable row and only then submitting.
    One event is one access to the lock table, one use of a semaphore, one database statement or the submission
    itself; a process may crash between any two. */
module Submission {
  import opened Wrappers

  type ProcessId = nat  // a restart is a new process
  type ThreadId = nat
  type ItemId = nat     // the address of a lock object

  /** A caller's idempotency key for one operation. */
  datatype Slot = Slot(operation: nat, key: nat)

  /** One request body under a slot; the reservation row's id is an injective digest of exactly this. */
  datatype Call = Call(slot: Slot, fingerprint: nat)

  datatype RowState = Submitting | Accepted | Rejected | Unknown

  datatype Result = Reused(row: RowState) | Conflict | InProgress | Failed | Answered | NoRoute

  datatype Phase =
    | Fresh
    | Routed
    | Waiting(item: ItemId)
    | Holding(item: ItemId)
    | Reserving(item: ItemId)
    | Sending(item: ItemId)
    | Sent(item: ItemId)
    | Recorded(item: ItemId)
    | Dropping(item: ItemId, result: Result)
    | Done(result: Result)

  datatype Thread = Thread(process: ProcessId, call: Call, phase: Phase)

  /** Who may enter: lock objects are per process. */
  datatype LockKey = LockKey(process: ProcessId, slot: Slot)

  datatype Cell = Cell(refs: int, held: bool)

  datatype Locks = Locks(items: map<LockKey, ItemId>, cells: map<ItemId, Cell>, next: ItemId)

  datatype Sent = Submit(process: ProcessId, call: Call)

  datatype State = State(
    rows: map<Call, RowState>,
    locks: Locks,
    threads: map<ThreadId, Thread>,
    dead: set<ProcessId>,
    log: seq<Sent>)  // what providers have received, oldest first

  // ---------------------------------------------------------------- the keyed lock

  function KeyOf(t: Thread): LockKey { LockKey(t.process, t.call.slot) }

  /** Finds or creates the lock object and takes a reference. */
  function EnterLocks(l: Locks, key: LockKey): (Locks, ItemId) {
    if key in l.items && l.items[key] in l.cells then
      var item := l.items[key];
      (l.(cells := l.cells[item := l.cells[item].(refs := l.cells[item].refs + 1)]), item)
    else
      (Locks(l.items[key := l.next], l.cells[l.next := Cell(1, false)], l.next + 1), l.next)
  }

  function SetHeld(l: Locks, item: ItemId, held: bool): Locks
    requires item in l.cells
  {
    l.(cells := l.cells[item := l.cells[item].(held := held)])
  }

  /** Gives a reference back; the last one takes the object out of the table. */
  function DropLocks(l: Locks, key: LockKey, item: ItemId): Locks
    requires item in l.cells
  {
    var cell := l.cells[item].(refs := l.cells[item].refs - 1);
    l.(cells := l.cells[item := cell], items := if cell.refs == 0 then l.items - {key} else l.items)
  }

  // ---------------------------------------------------------------- the steps

  function Matching(rows: map<Call, RowState>, slot: Slot): set<Call> { set c | c in rows && c.slot == slot }

  /** The lookup by key and operation: no row, the caller's own row, or a conflict. */
  function LookUp(rows: map<Call, RowState>, call: Call): Option<Result> {
    var found := Matching(rows, call.slot);
    if found == {} then None
    else if found == {call} then Some(if rows[call] == Accepted then Reused(Accepted) else InProgress)
    else Some(Conflict)
  }

  function MoveTo(s: State, tid: ThreadId, phase: Phase): State
    requires tid in s.threads
  {
    s.(threads := s.threads[tid := s.threads[tid].(phase := phase)])
  }

  /** Frees the semaphore; the reference goes back in a later step. */
  function ReleaseStep(s: State, tid: ThreadId, item: ItemId, result: Result): State
    requires tid in s.threads
  {
    if item in s.locks.cells then MoveTo(s, tid, Dropping(item, result)).(locks := SetHeld(s.locks, item, false)) else s
  }

  datatype Event =
    | Start(tid: ThreadId, process: ProcessId, call: Call)
    | FirstLookup(tid: ThreadId)
    | GiveUpRouting(tid: ThreadId)
    | Enter(tid: ThreadId)
    | Take(tid: ThreadId)
    | Cancel(tid: ThreadId)
    | SecondLookup(tid: ThreadId)
    | Reserve(tid: ThreadId, available: bool)
    | SubmitToProvider(tid: ThreadId, reaches: bool)
    | Record(tid: ThreadId, outcome: Option<RowState>)
    | Abandon(tid: ThreadId)
    | Finish(tid: ThreadId)
    | Drop(tid: ThreadId)
    | Crash(process: ProcessId)

  function StartStep(s: State, tid: ThreadId, process: ProcessId, call: Call): State {
    if tid in s.threads || process in s.dead then s
    else s.(threads := s.threads[tid := Thread(process, call, Fresh)])
  }

  function CrashStep(s: State, process: ProcessId): State {
    s.(threads := map tid | tid in s.threads && s.threads[tid].process != process :: s.threads[tid],
       locks := s.locks.(items := map k | k in s.locks.items && k.process != process :: s.locks.items[k]),
       dead := s.dead + {process})
  }

  function ThreadStep(s: State, tid: ThreadId, ev: Event): State
    requires tid in s.threads
  {
    var t := s.threads[tid];
    match (ev, t.phase)
    case (FirstLookup(_), Fresh) =>
      (match LookUp(s.rows, t.call)
       case None => MoveTo(s, tid, Routed)
       case Some(r) => MoveTo(s, tid, Done(r)))
    case (GiveUpRouting(_), Routed) => MoveTo(s, tid, Done(NoRoute))
    case (Enter(_), Routed) =>
      var (locks, item) := EnterLocks(s.locks, KeyOf(t));
      MoveTo(s, tid, Waiting(item)).(locks := locks)
    case (Take(_), Waiting(item)) =>
      if item in s.locks.cells && !s.locks.cells[item].held
      then MoveTo(s, tid, Holding(item)).(locks := SetHeld(s.locks, item, true)) else s
    case (Cancel(_), Waiting(item)) =>
      if item in s.locks.cells
      then MoveTo(s, tid, Done(Failed)).(locks := DropLocks(s.locks, KeyOf(t), item)) else s
    case (SecondLookup(_), Holding(item)) =>
      (match LookUp(s.rows, t.call)
       case None => MoveTo(s, tid, Reserving(item))
       case Some(r) => ReleaseStep(s, tid, item, r))
    case (Reserve(_, available), Reserving(item)) =>
      if available && t.call !in s.rows
      then MoveTo(s, tid, Sending(item)).(rows := s.rows[t.call := Submitting])
      else ReleaseStep(s, tid, item, if t.call in s.rows then InProgress else Failed)
    case (SubmitToProvider(_, reaches), Sending(item)) =>
      MoveTo(s, tid, Sent(item)).(log := if reaches then s.log + [Submit(t.process, t.call)] else s.log)
    case (Record(_, outcome), Sent(item)) =>
      MoveTo(s, tid, Recorded(item)).(rows :=
        if outcome.Some? && t.call in s.rows then s.rows[t.call := outcome.value] else s.rows)
    case (Abandon(_), Holding(item)) => ReleaseStep(s, tid, item, Failed)
    case (Abandon(_), Reserving(item)) => ReleaseStep(s, tid, item, Failed)
    case (Finish(_), Recorded(item)) => ReleaseStep(s, tid, item, Answered)
    case (Drop(_), Dropping(item, result)) =>
      if item in s.locks.cells then MoveTo(s, tid, Done(result)).(locks := DropLocks(s.locks, KeyOf(t), item)) else s
    case _ => s
  }

  function Apply(s: State, ev: Event): State {
    match ev
    case Start(tid, process, call) => StartStep(s, tid, process, call)
    case Crash(process) => CrashStep(s, process)
    case _ => if ev.tid in s.threads then ThreadStep(s, ev.tid, ev) else s
  }

  function Run(s: State, events: seq<Event>): State {
    if events == [] then s else Apply(Run(s, events[..|events| - 1]), events[|events| - 1])
  }

  function Initial(): State { State(map[], Locks(map[], map[], 0), map[], {}, []) }

  // ---------------------------------------------------------------- the invariant of the lock

  predicate Uses(p: Phase) {
    p.Waiting? || p.Holding? || p.Reserving? || p.Sending? || p.Sent? || p.Recorded? || p.Dropping?
  }

  predicate Holds(p: Phase) { p.Holding? || p.Reserving? || p.Sending? || p.Sent? || p.Recorded? }

  predicate UsesItem(t: Thread, item: ItemId) { Uses(t.phase) && t.phase.item == item }

  function Users(threads: map<ThreadId, Thread>, item: ItemId): set<ThreadId> {
    set tid | tid in threads && UsesItem(threads[tid], item)
  }

  /** Every thread using a lock object uses the one in the table under its key. */
  ghost predicate UsersAgree(s: State) {
    forall tid :: tid in s.threads && Uses(s.threads[tid].phase) ==>
      KeyOf(s.threads[tid]) in s.locks.items && s.locks.items[KeyOf(s.threads[tid])] == s.threads[tid].phase.item
  }

  /** The table's objects exist, are distinct, and count exactly their users, of whom there is at least one. */
  ghost predicate RefsCount(s: State) {
    && (forall k :: k in s.locks.items ==>
          var item := s.locks.items[k];
          item in s.locks.cells && item < s.locks.next && s.locks.cells[item].refs == |Users(s.threads, item)| > 0)
    && (forall j, k :: j in s.locks.items && k in s.locks.items && j != k ==> s.locks.items[j] != s.locks.items[k])
  }

  /** A semaphore is taken exactly while one thread is inside, and never by two. */
  ghost predicate HeldByOne(s: State) {
    && (forall tid :: tid in s.threads && Holds(s.threads[tid].phase) ==>
          s.threads[tid].phase.item in s.locks.cells && s.locks.cells[s.threads[tid].phase.item].held)
    && (forall i, j :: i in s.threads && j in s.threads && BothHold(s.threads[i], s.threads[j]) ==> i == j)
    && (forall k :: k in s.locks.items && s.locks.items[k] in s.locks.cells && s.locks.cells[s.locks.items[k]].held ==>
          exists tid :: tid in s.threads && HoldsItem(s.threads[tid], s.locks.items[k]))
  }

  predicate HoldsItem(t: Thread, item: ItemId) { Holds(t.phase) && t.phase.item == item }

  predicate BothHold(a: Thread, b: Thread) { Holds(a.phase) && Holds(b.phase) && a.phase.item == b.phase.item }

  ghost predicate LocksSound(s: State) { UsersAgree(s) && RefsCount(s) && HeldByOne(s) }

  // ---------------------------------------------------------------- each step keeps the lock sound

  lemma {:induction false} UsersAfterMove(threads: map<ThreadId, Thread>, tid: ThreadId, phase: Phase, item: ItemId)
    requires tid in threads
    ensures Users(threads[tid := threads[tid].(phase := phase)], item) ==
            Users(threads, item) - {tid} + (if Uses(phase) && phase.item == item then {tid} else {})
    ensures tid in Users(threads, item) <==> UsesItem(threads[tid], item)
  {
  }

  /** A move between phases that use the lock in the same way. */
  predicate SameUse(p: Phase, q: Phase) {
    Uses(p) == Uses(q) && Holds(p) == Holds(q) && (Uses(p) ==> p.item == q.item)
  }

  lemma {:induction false} SameUseKeepsLocks(s: State, tid: ThreadId, phase: Phase, t: State)
    requires LocksSound(s) && tid in s.threads && SameUse(s.threads[tid].phase, phase)
    requires t.threads == MoveTo(s, tid, phase).threads && t.locks == s.locks
    ensures LocksSound(t)
  {
    hide Users;
    forall item ensures Users(t.threads, item) == Users(s.threads, item) {
      UsersAfterMove(s.threads, tid, phase, item);
      hide Uses;
      if UsesItem(s.threads[tid], item) {
        assert Users(s.threads, item) - {tid} + {tid} == Users(s.threads, item);
      } else {
        assert Users(s.threads, item) - {tid} == Users(s.threads, item);
      }
    }
    SameUseKeepsHeld(s, tid, phase, t);
  }

  lemma {:induction false} SameUseKeepsHeld(s: State, tid: ThreadId, phase: Phase, t: State)
    requires HeldByOne(s) && tid in s.threads && SameUse(s.threads[tid].phase, phase)
    requires t.threads == MoveTo(s, tid, phase).threads && t.locks == s.locks
    ensures HeldByOne(t)
  {
    forall k | k in t.locks.items && t.locks.items[k] in t.locks.cells && t.locks.cells[t.locks.items[k]].held
      ensures exists i :: i in t.threads && HoldsItem(t.threads[i], t.locks.items[k])
    {
      var i :| i in s.threads && HoldsItem(s.threads[i], s.locks.items[k]);
      assert HoldsItem(t.threads[i], t.locks.items[k]);
    }
  }

  lemma {:induction false} EnteringCounts(threads: map<ThreadId, Thread>, tid: ThreadId, item: ItemId, other: ItemId)
    requires tid in threads && !Uses(threads[tid].phase)
    ensures |Users(threads[tid := threads[tid].(phase := Waiting(item))], other)| ==
            |Users(threads, other)| + (if item == other then 1 else 0)
  {
    UsersAfterMove(threads, tid, Waiting(item), other);
    assert Users(threads, other) - {tid} == Users(threads, other);
  }

  lemma {:induction false} LeavingCounts(threads: map<ThreadId, Thread>, tid: ThreadId, phase: Phase, other: ItemId)
    requires tid in threads && Uses(threads[tid].phase) && !Uses(phase)
    ensures |Users(threads[tid := threads[tid].(phase := phase)], other)| ==
            |Users(threads, other)| - (if threads[tid].phase.item == other then 1 else 0)
  {
    UsersAfterMove(threads, tid, phase, other);
    if threads[tid].phase.item != other {
      assert Users(threads, other) - {tid} == Users(threads, other);
    }
  }

  /** What joining an existing lock object changes. */
  lemma {:induction false} JoinKeepsRefs(s: State, t: State, tid: ThreadId, item: ItemId)
    requires UsersAgree(s) && RefsCount(s) && tid in s.threads && !Uses(s.threads[tid].phase) && item in s.locks.cells
    requires t.threads == MoveTo(s, tid, Waiting(item)).threads
    requires t.locks == s.locks.(cells := s.locks.cells[item := s.locks.cells[item].(refs := s.locks.cells[item].refs + 1)])
    ensures RefsCount(t)
  {
    hide Users, UsersAgree;
    forall k | k in t.locks.items
      ensures t.locks.items[k] in t.locks.cells && t.locks.items[k] < t.locks.next
      ensures t.locks.cells[t.locks.items[k]].refs == |Users(t.threads, t.locks.items[k])| > 0
    {
      EnteringCounts(s.threads, tid, item, s.locks.items[k]);
    }
  }

  lemma {:induction false} CreateKeepsRefs(s: State, t: State, tid: ThreadId, key: LockKey)
    requires UsersAgree(s) && RefsCount(s) && tid in s.threads && !Uses(s.threads[tid].phase) && key !in s.locks.items
    requires t.threads == MoveTo(s, tid, Waiting(s.locks.next)).threads
    requires t.locks == Locks(s.locks.items[key := s.locks.next], s.locks.cells[s.locks.next := Cell(1, false)], s.locks.next + 1)
    ensures RefsCount(t)
  {
    FreshHasNoUsers(s);
    hide Users, UsersAgree;
    forall k | k in t.locks.items
      ensures t.locks.items[k] in t.locks.cells && t.locks.items[k] < t.locks.next
      ensures t.locks.cells[t.locks.items[k]].refs == |Users(t.threads, t.locks.items[k])| > 0
    {
      EnteringCounts(s.threads, tid, s.locks.next, t.locks.items[k]);
    }
  }

  lemma {:induction false} FreshHasNoUsers(s: State)
    requires UsersAgree(s) && RefsCount(s)
    ensures Users(s.threads, s.locks.next) == {}
    ensures forall tid :: tid in s.threads && Uses(s.threads[tid].phase) ==> s.threads[tid].phase.item < s.locks.next
  {
    hide Users;
    NoUsers(s.threads, s.locks.next);
  }

  lemma {:induction false} NoUsers(threads: map<ThreadId, Thread>, item: ItemId)
    requires forall tid :: tid in threads ==> !UsesItem(threads[tid], item)
    ensures Users(threads, item) == {}
  {
  }

  /** A change of lock cells and of one thread that does not touch who holds what. */
  lemma {:induction false} BystandersKeepHeld(s: State, t: State, tid: ThreadId, phase: Phase)
    requires HeldByOne(s) && tid in s.threads && !Holds(s.threads[tid].phase) && !Holds(phase)
    requires t.threads == MoveTo(s, tid, phase).threads
    requires forall i :: i in s.threads && Holds(s.threads[i].phase) && s.threads[i].phase.item in s.locks.cells ==>
      var item := s.threads[i].phase.item; item in t.locks.cells && t.locks.cells[item].held == s.locks.cells[item].held
    requires forall k :: k in t.locks.items && t.locks.items[k] in t.locks.cells && t.locks.cells[t.locks.items[k]].held ==>
      var item := t.locks.items[k];
      k in s.locks.items && s.locks.items[k] == item && item in s.locks.cells && s.locks.cells[item].held
    ensures HeldByOne(t)
  {
    hide Holds;
    forall i, j | i in t.threads && j in t.threads && BothHold(t.threads[i], t.threads[j]) ensures i == j {
      assert BothHold(s.threads[i], s.threads[j]);
    }
    forall k | k in t.locks.items && t.locks.items[k] in t.locks.cells && t.locks.cells[t.locks.items[k]].held
      ensures exists i :: i in t.threads && HoldsItem(t.threads[i], t.locks.items[k])
    {
      var i :| i in s.threads && HoldsItem(s.threads[i], s.locks.items[k]);
      assert HoldsItem(t.threads[i], t.locks.items[k]);
    }
  }

  lemma {:induction false} EnterKeepsLocks(s: State, tid: ThreadId)
    requires LocksSound(s) && tid in s.threads && s.threads[tid].phase == Routed
    ensures LocksSound(ThreadStep(s, tid, Enter(tid)))
  {
    hide RefsCount, HeldByOne;
    var t := ThreadStep(s, tid, Enter(tid));
    var key := KeyOf(s.threads[tid]);
    var (locks, item) := EnterLocks(s.locks, key);
    ItemsExist(s);
    HoldersAreUsers(s);
    FreshHasNoUsers(s);
    if key in s.locks.items {
      JoinKeepsRefs(s, t, tid, item);
    } else {
      CreateKeepsRefs(s, t, tid, key);
    }
    BystandersKeepHeld(s, t, tid, Waiting(item));
  }

  lemma {:induction false} ItemsExist(s: State)
    requires RefsCount(s)
    ensures forall k :: k in s.locks.items ==> s.locks.items[k] in s.locks.cells && s.locks.items[k] < s.locks.next
  {
  }

  lemma {:induction false} HoldersAreUsers(s: State)
    ensures forall tid :: tid in s.threads && Holds(s.threads[tid].phase) ==> Uses(s.threads[tid].phase)
  {
  }

  /** Giving a reference back, without being inside. */
  lemma {:induction false} LeaveKeepsLocks(s: State, t: State, tid: ThreadId, result: Result)
    requires LocksSound(s) && tid in s.threads && Uses(s.threads[tid].phase) && !Holds(s.threads[tid].phase)
    requires s.threads[tid].phase.item in s.locks.cells
    requires t.threads == MoveTo(s, tid, Done(result)).threads
    requires t.locks == DropLocks(s.locks, KeyOf(s.threads[tid]), s.threads[tid].phase.item)
    ensures LocksSound(t)
  {
    hide RefsCount, HeldByOne, Users, UsersAgree;
    LeaveKeepsRefs(s, t, tid, result);
    LeaveKeepsUsers(s, t, tid, result);
    HoldersAreUsers(s);
    BystandersKeepHeld(s, t, tid, Done(result));
  }

  lemma {:induction false} LeaveKeepsRefs(s: State, t: State, tid: ThreadId, result: Result)
    requires UsersAgree(s) && RefsCount(s) && tid in s.threads && Uses(s.threads[tid].phase)
    requires s.threads[tid].phase.item in s.locks.cells
    requires t.threads == MoveTo(s, tid, Done(result)).threads
    requires t.locks == DropLocks(s.locks, KeyOf(s.threads[tid]), s.threads[tid].phase.item)
    ensures RefsCount(t)
  {
    hide Users;
    var key, item := KeyOf(s.threads[tid]), s.threads[tid].phase.item;
    assert s.locks.items[key] == item;
    hide UsersAgree, Uses;
    forall k | k in t.locks.items
      ensures t.locks.items[k] in t.locks.cells && t.locks.items[k] < t.locks.next
      ensures t.locks.cells[t.locks.items[k]].refs == |Users(t.threads, t.locks.items[k])| > 0
    {
      LeavingCounts(s.threads, tid, Done(result), s.locks.items[k]);
    }
  }

  lemma {:induction false} LeaveKeepsUsers(s: State, t: State, tid: ThreadId, result: Result)
    requires UsersAgree(s) && RefsCount(s) && tid in s.threads && Uses(s.threads[tid].phase)
    requires s.threads[tid].phase.item in s.locks.cells
    requires t.threads == MoveTo(s, tid, Done(result)).threads
    requires t.locks == DropLocks(s.locks, KeyOf(s.threads[tid]), s.threads[tid].phase.item)
    ensures UsersAgree(t)
  {
    var key, item := KeyOf(s.threads[tid]), s.threads[tid].phase.item;
    assert s.locks.items[key] == item;
    assert s.locks.cells[item].refs == |Users(s.threads, item)|;
    hide RefsCount, Users;
    if |Users(s.threads, item)| == 1 { OnlyUser(s.threads, tid, item); }
  }

  lemma {:induction false} OnlyUser(threads: map<ThreadId, Thread>, tid: ThreadId, item: ItemId)
    requires tid in threads && UsesItem(threads[tid], item) && |Users(threads, item)| == 1
    ensures forall i :: i in threads && UsesItem(threads[i], item) ==> i == tid
  {
    hide UsesItem;
    var users := Users(threads, item);
    assert |users - {tid}| == 0;
    forall i | i in threads && UsesItem(threads[i], item) ensures i == tid {
      assert i in users && i !in users - {tid};
    }
  }

  lemma {:induction false} TakeKeepsLocks(s: State, t: State, tid: ThreadId, item: ItemId)
    requires LocksSound(s) && tid in s.threads && s.threads[tid].phase == Waiting(item)
    requires item in s.locks.cells && !s.locks.cells[item].held
    requires t.threads == MoveTo(s, tid, Holding(item)).threads && t.locks == SetHeld(s.locks, item, true)
    ensures LocksSound(t)
  {
    hide Users, UsersAgree, RefsCount, HeldByOne;
    StillUsing(s, tid, Holding(item), t);
    TakeKeepsHeld(s, t, tid, item);
  }

  lemma {:induction false} TakeKeepsHeld(s: State, t: State, tid: ThreadId, item: ItemId)
    requires HeldByOne(s) && tid in s.threads && s.threads[tid].phase == Waiting(item)
    requires item in s.locks.cells && !s.locks.cells[item].held
    requires t.threads == MoveTo(s, tid, Holding(item)).threads && t.locks == SetHeld(s.locks, item, true)
    ensures HeldByOne(t)
  {
    forall k | k in t.locks.items && t.locks.items[k] in t.locks.cells && t.locks.cells[t.locks.items[k]].held
      ensures exists i :: i in t.threads && HoldsItem(t.threads[i], t.locks.items[k])
    {
      if t.locks.items[k] == item {
        assert HoldsItem(t.threads[tid], item);
      } else {
        var i :| i in s.threads && HoldsItem(s.threads[i], s.locks.items[k]);
        assert HoldsItem(t.threads[i], t.locks.items[k]);
      }
    }
  }

  /** A user stays a user of the same object; only `held` flags may change. */
  lemma {:induction false} StillUsing(s: State, tid: ThreadId, phase: Phase, t: State)
    requires UsersAgree(s) && RefsCount(s) && tid in s.threads
    requires Uses(s.threads[tid].phase) && Uses(phase) && s.threads[tid].phase.item == phase.item
    requires t.threads == MoveTo(s, tid, phase).threads && t.locks.items == s.locks.items && t.locks.next == s.locks.next
    requires t.locks.cells.Keys == s.locks.cells.Keys
    requires forall item :: item in s.locks.cells ==> t.locks.cells[item].refs == s.locks.cells[item].refs
    ensures UsersAgree(t) && RefsCount(t)
  {
    hide Users;
    forall item ensures Users(t.threads, item) == Users(s.threads, item) {
      UsersAfterMove(s.threads, tid, phase, item);
      hide Uses;
      if UsesItem(s.threads[tid], item) {
        assert Users(s.threads, item) - {tid} + {tid} == Users(s.threads, item);
      } else {
        assert Users(s.threads, item) - {tid} == Users(s.threads, item);
      }
    }
  }

  lemma {:induction false} ReleaseKeepsLocks(s: State, t: State, tid: ThreadId, item: ItemId, result: Result)
    requires LocksSound(s) && tid in s.threads && Holds(s.threads[tid].phase) && s.threads[tid].phase.item == item
    requires item in s.locks.cells
    requires t.threads == MoveTo(s, tid, Dropping(item, result)).threads && t.locks == SetHeld(s.locks, item, false)
    ensures LocksSound(t)
  {
    hide Users, UsersAgree, RefsCount, HeldByOne;
    HoldersAreUsers(s);
    StillUsing(s, tid, Dropping(item, result), t);
    ReleaseKeepsHeld(s, t, tid, item, result);
  }

  lemma {:induction false} ReleaseKeepsHeld(s: State, t: State, tid: ThreadId, item: ItemId, result: Result)
    requires HeldByOne(s) && tid in s.threads && Holds(s.threads[tid].phase) && s.threads[tid].phase.item == item
    requires item in s.locks.cells
    requires t.threads == MoveTo(s, tid, Dropping(item, result)).threads && t.locks == SetHeld(s.locks, item, false)
    ensures HeldByOne(t)
  {
    forall i | i in t.threads && Holds(t.threads[i].phase)
      ensures t.threads[i].phase.item in t.locks.cells && t.locks.cells[t.threads[i].phase.item].held
    {
      assert i != tid && !BothHold(s.threads[i], s.threads[tid]);
    }
    forall k | k in t.locks.items && t.locks.items[k] in t.locks.cells && t.locks.cells[t.locks.items[k]].held
      ensures exists i :: i in t.threads && HoldsItem(t.threads[i], t.locks.items[k])
    {
      var i :| i in s.threads && HoldsItem(s.threads[i], s.locks.items[k]);
      assert HoldsItem(t.threads[i], t.locks.items[k]);
    }
  }

  lemma {:induction false} StartKeepsLocks(s: State, tid: ThreadId, process: ProcessId, call: Call)
    requires LocksSound(s)
    ensures LocksSound(StartStep(s, tid, process, call))
  {
    hide Users, HeldByOne;
    StartKeepsHeld(s, tid, process, call);
    if tid !in s.threads {
      var threads := s.threads[tid := Thread(process, call, Fresh)];
      forall item ensures Users(threads, item) == Users(s.threads, item) {
        NewcomerUsesNothing(s.threads, tid, Thread(process, call, Fresh), item);
      }
    }
  }

  lemma {:induction false} StartKeepsHeld(s: State, tid: ThreadId, process: ProcessId, call: Call)
    requires HeldByOne(s)
    ensures HeldByOne(StartStep(s, tid, process, call))
  {
    var t := StartStep(s, tid, process, call);
    forall k | k in t.locks.items && t.locks.items[k] in t.locks.cells && t.locks.cells[t.locks.items[k]].held
      ensures exists i :: i in t.threads && HoldsItem(t.threads[i], t.locks.items[k])
    {
      var i :| i in s.threads && HoldsItem(s.threads[i], s.locks.items[k]);
      assert t.threads[i] == s.threads[i];
    }
  }

  lemma {:induction false} NewcomerUsesNothing(threads: map<ThreadId, Thread>, tid: ThreadId, t: Thread, item: ItemId)
    requires tid !in threads && !Uses(t.phase)
    ensures Users(threads[tid := t], item) == Users(threads, item)
  {
  }

  /** A crash takes the threads and the lock table of its process, whose objects nobody else uses. */
  lemma {:induction false} CrashKeepsLocks(s: State, process: ProcessId)
    requires LocksSound(s)
    ensures LocksSound(CrashStep(s, process))
  {
    hide Users, HeldByOne, UsesItem, Uses;
    var t := CrashStep(s, process);
    CrashKeepsHeld(s, process);
    forall k | k in t.locks.items ensures Users(t.threads, t.locks.items[k]) == Users(s.threads, t.locks.items[k]) {
      SurvivorsKeepUsers(s, process, k);
    }
  }

  lemma {:induction false} CrashKeepsHeld(s: State, process: ProcessId)
    requires LocksSound(s)
    ensures HeldByOne(CrashStep(s, process))
  {
    hide UsersAgree, RefsCount;
    var t := CrashStep(s, process);
    forall k | k in t.locks.items && t.locks.items[k] in t.locks.cells && t.locks.cells[t.locks.items[k]].held
      ensures exists i :: i in t.threads && HoldsItem(t.threads[i], t.locks.items[k])
    {
      var i :| i in s.threads && HoldsItem(s.threads[i], s.locks.items[k]);
      UserOfKey(s, i, k);
      assert i in t.threads && t.threads[i] == s.threads[i];
    }
  }

  lemma {:induction false} UserOfKey(s: State, tid: ThreadId, k: LockKey)
    requires UsersAgree(s) && RefsCount(s) && k in s.locks.items && tid in s.threads && UsesItem(s.threads[tid], s.locks.items[k])
    ensures KeyOf(s.threads[tid]) == k
  {
    hide Users;
  }

  lemma {:induction false} SurvivorsKeepUsers(s: State, process: ProcessId, k: LockKey)
    requires UsersAgree(s) && RefsCount(s) && k in s.locks.items && k.process != process
    ensures Users(CrashStep(s, process).threads, s.locks.items[k]) == Users(s.threads, s.locks.items[k])
  {
    hide UsersAgree, RefsCount, UsesItem;
    forall tid | tid in s.threads && UsesItem(s.threads[tid], s.locks.items[k]) ensures s.threads[tid].process != process {
      UserOfKey(s, tid, k);
    }
  }

  lemma {:induction false} HolderItemExists(s: State, tid: ThreadId)
    requires LocksSound(s) && tid in s.threads && Uses(s.threads[tid].phase)
    ensures s.threads[tid].phase.item in s.locks.cells
  {
  }

  lemma {:induction false} ThreadStepKeepsLocks(s: State, tid: ThreadId, ev: Event)
    requires LocksSound(s) && tid in s.threads
    ensures LocksSound(ThreadStep(s, tid, ev))
  {
    hide LocksSound, EnterLocks, DropLocks, SetHeld, LookUp;
    var p := s.threads[tid].phase;
    var t := ThreadStep(s, tid, ev);
    if t != s && !p.Done? {
      if Uses(p) { HolderItemExists(s, tid); }
      match p
      case Fresh => SameUseKeepsLocks(s, tid, t.threads[tid].phase, t);
      case Routed =>
        if ev.Enter? { EnterStepIs(s, tid, ev); EnterKeepsLocks(s, tid); }
        else { SameUseKeepsLocks(s, tid, t.threads[tid].phase, t); }
      case Waiting(item) =>
        if ev.Take? { TakeKeepsLocks(s, t, tid, item); } else { LeaveKeepsLocks(s, t, tid, Failed); }
      case Dropping(item, result) => LeaveKeepsLocks(s, t, tid, result);
      case Holding(item) =>
        if t.threads[tid].phase.Reserving? { SameUseKeepsLocks(s, tid, Reserving(item), t); }
        else { ReleaseKeepsLocks(s, t, tid, item, t.threads[tid].phase.result); }
      case Reserving(item) =>
        if t.threads[tid].phase.Sending? { SameUseKeepsLocks(s, tid, Sending(item), t); }
        else { ReleaseKeepsLocks(s, t, tid, item, t.threads[tid].phase.result); }
      case Sending(item) => SameUseKeepsLocks(s, tid, Sent(item), t);
      case Sent(item) => SameUseKeepsLocks(s, tid, Recorded(item), t);
      case Recorded(item) => ReleaseKeepsLocks(s, t, tid, item, Answered);
    }
  }

  lemma {:induction false} EnterStepIs(s: State, tid: ThreadId, ev: Event)
    requires tid in s.threads && s.threads[tid].phase == Routed && ev.Enter?
    ensures ThreadStep(s, tid, ev) == ThreadStep(s, tid, Enter(tid))
  {
  }

  lemma {:induction false} ApplyKeepsLocks(s: State, ev: Event)
    requires LocksSound(s)
    ensures LocksSound(Apply(s, ev))
  {
    hide LocksSound, ThreadStep, StartStep, CrashStep;
    match ev
    case Start(tid, process, call) => StartKeepsLocks(s, tid, process, call);
    case Crash(process) => CrashKeepsLocks(s, process);
    case _ => if ev.tid in s.threads { ThreadStepKeepsLocks(s, ev.tid, ev); }
  }

  /** Two threads of one process that are inside for the same key are the same thread, although lock objects come
      and go. */
  lemma {:induction false} MutualExclusion(s: State, i: ThreadId, j: ThreadId)
    requires LocksSound(s) && i in s.threads && j in s.threads && Holds(s.threads[i].phase) && Holds(s.threads[j].phase)
    requires KeyOf(s.threads[i]) == KeyOf(s.threads[j])
    ensures i == j
  {
    hide Users;
    assert BothHold(s.threads[i], s.threads[j]);
  }

  /** A lock table entry exists exactly while some thread of its process is using it. */
  lemma {:induction false} TableEmptiesWithItsUsers(s: State, k: LockKey)
    requires LocksSound(s)
    ensures k in s.locks.items <==>
      exists tid :: tid in s.threads && Uses(s.threads[tid].phase) && KeyOf(s.threads[tid]) == k
  {
    if k in s.locks.items {
      var item := s.locks.items[k];
      assert |Users(s.threads, item)| > 0;
      SomeUser(s.threads, item);
      var tid :| tid in Users(s.threads, item);
      UserOfKey(s, tid, k);
    }
  }

  lemma {:induction false} SomeUser(threads: map<ThreadId, Thread>, item: ItemId)
    requires |Users(threads, item)| > 0
    ensures exists tid :: tid in Users(threads, item)
  {
    hide Users;
  }

  // ---------------------------------------------------------------- reservation before submission

  /** A thread between its reservation and its submission. */
  predicate MaySend(p: Phase) { p.Sending? }

  /** Past the second lookup and not yet submitted. */
  predicate Cleared(p: Phase) { p.Reserving? || p.Sending? }

  /** Everything sent was reserved, and a thread about to send is the only one with its reservation. */
  ghost predicate ReservedFirst(s: State) {
    && (forall i :: 0 <= i < |s.log| ==> s.log[i].call in s.rows)
    && (forall tid :: tid in s.threads && MaySend(s.threads[tid].phase) ==>
          s.threads[tid].call in s.rows && Unsent(s.log, s.threads[tid].call))
    && (forall i, j :: i in s.threads && j in s.threads && BothMaySend(s.threads[i], s.threads[j]) ==> i == j)
  }

  predicate BothMaySend(a: Thread, b: Thread) { MaySend(a.phase) && MaySend(b.phase) && a.call == b.call }

  ghost predicate Unsent(log: seq<Sent>, call: Call) { forall i :: 0 <= i < |log| ==> log[i].call != call }

  ghost predicate UnsentBy(log: seq<Sent>, process: ProcessId, slot: Slot) {
    forall i :: 0 <= i < |log| ==> log[i].process != process || log[i].call.slot != slot
  }

  /** A thread cleared to submit belongs to a process that has not submitted under its slot. */
  ghost predicate ClearedIsFirst(s: State) {
    forall tid :: tid in s.threads && Cleared(s.threads[tid].phase) ==>
      UnsentBy(s.log, s.threads[tid].process, s.threads[tid].call.slot)
  }

  ghost predicate NoDuplicates(s: State) {
    forall i, j :: 0 <= i < j < |s.log| ==> s.log[i].call != s.log[j].call
  }

  ghost predicate OncePerProcess(s: State) {
    forall i, j :: 0 <= i < j < |s.log| && s.log[i].process == s.log[j].process ==>
      s.log[i].call.slot != s.log[j].call.slot
  }

  ghost predicate SendsSound(s: State) {
    ReservedFirst(s) && ClearedIsFirst(s) && NoDuplicates(s) && OncePerProcess(s)
  }

  ghost predicate Inv(s: State) { LocksSound(s) && SendsSound(s) }

  lemma {:induction false} LookUpNoneMeansUnsent(s: State, call: Call)
    requires ReservedFirst(s) && LookUp(s.rows, call) == None
    ensures forall i :: 0 <= i < |s.log| ==> s.log[i].call.slot != call.slot
  {
    forall i | 0 <= i < |s.log| ensures s.log[i].call.slot != call.slot {
      assert s.log[i].call in s.rows && s.log[i].call !in Matching(s.rows, call.slot);
    }
  }

  /** Steps that neither send nor clear anyone. */
  lemma {:induction false} QuietStepKeeps(s: State, t: State)
    requires SendsSound(s)
    requires t.log == s.log && forall c :: c in s.rows ==> c in t.rows
    requires forall tid :: tid in t.threads && Cleared(t.threads[tid].phase) ==>
      tid in s.threads && t.threads[tid] == s.threads[tid]
    ensures SendsSound(t)
  {
    forall i, j | i in t.threads && j in t.threads && BothMaySend(t.threads[i], t.threads[j]) ensures i == j {
      assert BothMaySend(s.threads[i], s.threads[j]);
    }
  }

  lemma {:induction false} ClearStepKeeps(s: State, tid: ThreadId, item: ItemId)
    requires SendsSound(s) && tid in s.threads
    requires LookUp(s.rows, s.threads[tid].call) == None
    ensures var t := MoveTo(s, tid, Reserving(item)); SendsSound(t)
  {
    LookUpNoneMeansUnsent(s, s.threads[tid].call);
    hide LookUp;
    var t := MoveTo(s, tid, Reserving(item));
    forall i, j | i in t.threads && j in t.threads && BothMaySend(t.threads[i], t.threads[j]) ensures i == j {
      assert BothMaySend(s.threads[i], s.threads[j]);
    }
  }

  lemma {:induction false} ReserveStepKeeps(s: State, tid: ThreadId, item: ItemId)
    requires SendsSound(s) && tid in s.threads
    requires s.threads[tid].phase == Reserving(item) && s.threads[tid].call !in s.rows
    ensures var t := MoveTo(s, tid, Sending(item)).(rows := s.rows[s.threads[tid].call := Submitting]); SendsSound(t)
  {
    var call := s.threads[tid].call;
    var t := MoveTo(s, tid, Sending(item)).(rows := s.rows[call := Submitting]);
    assert Unsent(s.log, call);
    forall i, j | i in t.threads && j in t.threads && BothMaySend(t.threads[i], t.threads[j]) ensures i == j {
      if i != tid && j != tid { assert BothMaySend(s.threads[i], s.threads[j]); }
    }
  }

  lemma {:induction false} SendStepKeeps(s: State, tid: ThreadId, item: ItemId)
    requires Inv(s) && tid in s.threads && s.threads[tid].phase == Sending(item)
    ensures var t := MoveTo(s, tid, Sent(item)).(log := s.log + [Submit(s.threads[tid].process, s.threads[tid].call)]); SendsSound(t)
  {
    hide LocksSound;
    var me := s.threads[tid];
    var t := MoveTo(s, tid, Sent(item)).(log := s.log + [Submit(me.process, me.call)]);
    forall i | i in t.threads && MaySend(t.threads[i].phase) ensures Unsent(t.log, t.threads[i].call) {
      assert !BothMaySend(s.threads[i], me);
    }
    forall i, j | i in t.threads && j in t.threads && BothMaySend(t.threads[i], t.threads[j]) ensures i == j {
      assert BothMaySend(s.threads[i], s.threads[j]);
    }
    forall i | i in t.threads && Cleared(t.threads[i].phase)
      ensures UnsentBy(t.log, t.threads[i].process, t.threads[i].call.slot)
    {
      if KeyOf(s.threads[i]) == KeyOf(me) { MutualExclusion(s, i, tid); }
    }
  }

  lemma {:induction false} ThreadStepKeepsSends(s: State, tid: ThreadId, ev: Event)
    requires Inv(s) && tid in s.threads
    ensures SendsSound(ThreadStep(s, tid, ev))
  {
    hide LocksSound, SendsSound, LookUp, EnterLocks, DropLocks, SetHeld;
    var t := ThreadStep(s, tid, ev);
    match s.threads[tid].phase
    case Holding(item) =>
      if t.threads[tid].phase.Reserving? { ClearStepKeeps(s, tid, item); } else { QuietStepKeeps(s, t); }
    case Reserving(item) =>
      if t.threads[tid].phase.Sending? { ReserveStepKeeps(s, tid, item); } else { QuietStepKeeps(s, t); }
    case Sending(item) =>
      if t.log != s.log { SendStepKeeps(s, tid, item); } else { QuietStepKeeps(s, t); }
    case _ => QuietStepKeeps(s, t);
  }

  lemma {:induction false} ApplyKeepsInv(s: State, ev: Event)
    requires Inv(s)
    ensures Inv(Apply(s, ev))
  {
    ApplyKeepsLocks(s, ev);
    hide ThreadStep, LocksSound, SendsSound;
    match ev
    case Start(tid, process, call) => QuietStepKeeps(s, StartStep(s, tid, process, call));
    case Crash(process) => QuietStepKeeps(s, CrashStep(s, process));
    case _ => if ev.tid in s.threads { ThreadStepKeepsSends(s, ev.tid, ev); }
  }

  lemma {:induction false} RunKeepsInv(events: seq<Event>)
    ensures Inv(Run(Initial(), events))
  {
    if events == [] {
      InitialInv();
    } else {
      hide Inv, Apply;
      RunKeepsInv(events[..|events| - 1]);
      ApplyKeepsInv(Run(Initial(), events[..|events| - 1]), events[|events| - 1]);
    }
  }

  lemma {:induction false} InitialInv()
    ensures Inv(Initial())
  {
  }

  /** Over every interleaving of requests, retries, processes and crashes, providers receive at most one submission
      per operation, caller key and fingerprint, and one process sends at most one per operation and key. */
  lemma {:induction false} AtMostOneSubmission(events: seq<Event>)
    ensures var log := Run(Initial(), events).log;
      forall i, j :: 0 <= i < j < |log| ==>
        log[i].call != log[j].call && (log[i].process == log[j].process ==> log[i].call.slot != log[j].call.slot)
  {
    RunKeepsInv(events);
    hide Run, LocksSound, ReservedFirst, ClearedIsFirst;
  }

  /** In every reachable state two threads of one process inside for the same key are the same thread, although
      lock objects are deleted and recreated all the time. */
  lemma {:induction false} NeverTwoInside(events: seq<Event>, i: ThreadId, j: ThreadId)
    requires var s := Run(Initial(), events);
      && i in s.threads && j in s.threads && Holds(s.threads[i].phase) && Holds(s.threads[j].phase)
      && KeyOf(s.threads[i]) == KeyOf(s.threads[j])
    ensures i == j
  {
    RunKeepsInv(events);
    hide Run, LocksSound;
    MutualExclusion(Run(Initial(), events), i, j);
  }

  /** In every reachable state a key has a lock entry exactly while a thread of its process uses it: once all users
      are gone the table is empty. */
  lemma {:induction false} EntriesLiveAsLongAsUsers(events: seq<Event>, k: LockKey)
    ensures var s := Run(Initial(), events);
      k in s.locks.items <==> exists tid :: tid in s.threads && Uses(s.threads[tid].phase) && KeyOf(s.threads[tid]) == k
  {
    RunKeepsInv(events);
    hide Run, LocksSound;
    TableEmptiesWithItsUsers(Run(Initial(), events), k);
  }

  // ---------------------------------------------------------------- one submission per slot

  ghost predicate OncePerSlot(s: State) {
    forall i, j :: 0 <= i < j < |s.log| ==> s.log[i].call.slot != s.log[j].call.slot
  }

  ghost predicate OneRowEach(rows: map<Call, RowState>) {
    forall c, d :: c in rows && d in rows && c.slot == d.slot ==> c == d
  }

  predicate Reserves(s: State, ev: Event) {
    ev.Reserve? && ev.available && ev.tid in s.threads && s.threads[ev.tid].phase.Reserving?
  }

  /** A step that creates a reservation finds none for its slot. */
  predicate FindsFree(s: State, ev: Event) {
    Reserves(s, ev) && s.threads[ev.tid].call !in s.rows ==> Matching(s.rows, s.threads[ev.tid].call.slot) == {}
  }

  /** The keys of the reservations after a step. */
  function RowsAfter(s: State, ev: Event): set<Call> {
    if Reserves(s, ev) then s.rows.Keys + {s.threads[ev.tid].call} else s.rows.Keys
  }

  lemma {:induction false} OnlyReserveAddsRows(s: State, ev: Event)
    ensures Apply(s, ev).rows.Keys == RowsAfter(s, ev)
  {
    hide LookUp, EnterLocks, DropLocks, SetHeld;
  }

  lemma {:induction false} StepIsOnceExactlyWhenFree(s: State, ev: Event)
    requires OneRowEach(s.rows)
    ensures OneRowEach(Apply(s, ev).rows) <==> FindsFree(s, ev)
  {
    hide Apply;
    OnlyReserveAddsRows(s, ev);
    if RowsAfter(s, ev) != s.rows.Keys {
      var call := s.threads[ev.tid].call;
      assert forall c :: c in Matching(s.rows, call.slot) <==> c in s.rows && c.slot == call.slot;
      if c :| c in Matching(s.rows, call.slot) { assert c != call && c in Apply(s, ev).rows; }
    }
  }

  ghost predicate AlwaysOneRowEach(events: seq<Event>) {
    forall n :: 0 <= n <= |events| ==> OneRowEach(Run(Initial(), events[..n]).rows)
  }

  ghost predicate EveryReservationFindsFree(events: seq<Event>) {
    forall i :: 0 <= i < |events| ==> FindsFree(Run(Initial(), events[..i]), events[i])
  }

  lemma {:induction false} RunLast(s: State, front: seq<Event>, ev: Event)
    ensures Run(s, front + [ev]) == Apply(Run(s, front), ev)
  {
    hide Apply;
    assert (front + [ev])[..|front|] == front;
  }

  lemma {:induction false} RunsSplit(front: seq<Event>, ev: Event)
    ensures AlwaysOneRowEach(front + [ev]) <==>
            AlwaysOneRowEach(front) && OneRowEach(Apply(Run(Initial(), front), ev).rows)
    ensures EveryReservationFindsFree(front + [ev]) <==>
            EveryReservationFindsFree(front) && FindsFree(Run(Initial(), front), ev)
  {
    hide Run, Apply, FindsFree, OneRowEach;
    var events := front + [ev];
    assert forall n :: 0 <= n <= |front| ==> events[..n] == front[..n];
    assert events[..|front|] == front[..|front|] == front && events[..|events|] == events && events[|front|] == ev;
    RunLast(Initial(), front, ev);
    forall i | 0 <= i < |front|
      ensures FindsFree(Run(Initial(), events[..i]), events[i]) <==> FindsFree(Run(Initial(), front[..i]), front[i])
    {
      assert events[..i] == front[..i] && events[i] == front[i];
    }
  }

  /** Over every interleaving, an operation and caller key never has two reservations exactly when each reservation
      that is made finds none there; the lookup before it does not see to that across processes. */
  lemma {:induction false} ReservedOnceExactlyWhenFree(events: seq<Event>)
    ensures AlwaysOneRowEach(events) <==> EveryReservationFindsFree(events)
    ensures AlwaysOneRowEach(events) ==> OncePerSlot(Run(Initial(), events))
  {
    hide Apply, FindsFree, OneRowEach;
    if events == [] {
      NoRowsYet();
    } else {
      var front, ev := events[..|events| - 1], events[|events| - 1];
      assert events == front + [ev] && front[..|front|] == front;
      ReservedOnceExactlyWhenFree(front);
      RunsSplit(front, ev);
      if AlwaysOneRowEach(front) {
        assert OneRowEach(Run(Initial(), front[..|front|]).rows);
        StepIsOnceExactlyWhenFree(Run(Initial(), front), ev);
      }
    }
    if AlwaysOneRowEach(events) {
      assert events[..|events|] == events;
      RunKeepsInv(events);
      OneRowMeansOneSubmission(Run(Initial(), events));
    }
  }

  lemma {:induction false} NoRowsYet()
    ensures OneRowEach(Initial().rows)
  {
  }

  lemma {:induction false} OneRowMeansOneSubmission(s: State)
    requires SendsSound(s) && OneRowEach(s.rows)
    ensures OncePerSlot(s)
  {
  }

  // ---------------------------------------------------------------- contention

  /** Two threads past their second lookup for one slot, with different requests. */
  predicate Rivals(a: Thread, b: Thread) {
    a.phase.Reserving? && b.phase.Reserving? && a.call.slot == b.call.slot && a.call != b.call
  }

  ghost predicate Contended(s: State) {
    exists i, j :: i in s.threads && j in s.threads && Rivals(s.threads[i], s.threads[j])
  }

  predicate Awaits(t: Thread, slot: Slot) { t.phase.Reserving? && t.call.slot == slot }

  /** A thread about to reserve still finds nobody else's row under its slot. */
  ghost predicate LookupsCurrent(s: State) {
    forall tid, c :: tid in s.threads && c in s.rows && Awaits(s.threads[tid], c.slot) ==> c == s.threads[tid].call
  }

  ghost predicate Orderly(s: State) { OneRowEach(s.rows) && LookupsCurrent(s) }

  /** A thread that gets to the reservation has just found no row. */
  lemma {:induction false} ReservingComesFromLookup(s: State, ev: Event, tid: ThreadId)
    requires tid in Apply(s, ev).threads && Apply(s, ev).threads[tid].phase.Reserving?
    ensures tid in s.threads && s.threads[tid].call == Apply(s, ev).threads[tid].call
    ensures !s.threads[tid].phase.Reserving? ==>
      ev == SecondLookup(tid) && Apply(s, ev).rows == s.rows && LookUp(s.rows, s.threads[tid].call) == None
  {
    hide LookUp, EnterLocks, DropLocks, SetHeld;
  }

  lemma {:induction false} UncontendedStepKeepsOrder(s: State, ev: Event)
    requires Orderly(s) && !Contended(s)
    ensures Orderly(Apply(s, ev))
  {
    hide Apply;
    OnlyReserveAddsRows(s, ev);
    var t := Apply(s, ev);
    forall tid, c | tid in t.threads && c in t.rows && Awaits(t.threads[tid], c.slot)
      ensures c == t.threads[tid].call
    {
      ReservingComesFromLookup(s, ev, tid);
      if s.threads[tid].phase.Reserving? {
        if c !in s.rows { assert !Rivals(s.threads[tid], s.threads[ev.tid]); }
      } else {
        NoneFound(s.rows, s.threads[tid].call);
      }
    }
  }

  lemma {:induction false} NoneFound(rows: map<Call, RowState>, call: Call)
    requires LookUp(rows, call) == None
    ensures forall c :: c in rows ==> c.slot != call.slot
  {
    forall c | c in rows ensures c.slot != call.slot {
      assert c !in Matching(rows, call.slot);
    }
  }

  ghost predicate NeverContended(events: seq<Event>) {
    forall n :: 0 <= n <= |events| ==> !Contended(Run(Initial(), events[..n]))
  }

  lemma {:induction false} NeverContendedSplits(front: seq<Event>, ev: Event)
    ensures NeverContended(front + [ev]) <==> NeverContended(front) && !Contended(Apply(Run(Initial(), front), ev))
  {
    hide Run, Apply, Contended;
    var events := front + [ev];
    assert forall n :: 0 <= n <= |front| ==> events[..n] == front[..n];
    assert events[..|events|] == events;
    RunLast(Initial(), front, ev);
  }

  lemma {:induction false} UncontendedRunIsOrderly(front: seq<Event>, ev: Event)
    requires NeverContended(front)
    ensures Orderly(Run(Initial(), front)) && Orderly(Run(Initial(), front + [ev]))
  {
    hide Apply, Contended;
    if front == [] {
    } else {
      var short, last := front[..|front| - 1], front[|front| - 1];
      assert front == short + [last];
      NeverContendedSplits(short, last);
      UncontendedRunIsOrderly(short, last);
    }
    assert front[..|front|] == front;
    RunLast(Initial(), front, ev);
    hide Orderly;
    UncontendedStepKeepsOrder(Run(Initial(), front), ev);
  }

  /** Providers receive at most one submission per operation and caller key, however many processes there are, as
      long as no two requests with different bodies are between lookup and reservation for the same one. */
  lemma {:induction false} UncontendedRunsSubmitOnce(events: seq<Event>)
    requires NeverContended(events)
    ensures OncePerSlot(Run(Initial(), events))
  {
    hide Run;
    UncontendedRunIsOrderly(events, Crash(0));
    RunKeepsInv(events);
    OneRowMeansOneSubmission(Run(Initial(), events));
  }

  /** Both threads reserve, then both submit. */
  function Race(i: ThreadId, j: ThreadId): seq<Event> {
    [Reserve(i, true), Reserve(j, true), SubmitToProvider(i, true), SubmitToProvider(j, true)]
  }

  lemma {:induction false} RunFour(s: State, a: Event, b: Event, c: Event, d: Event)
    ensures Run(s, [a, b, c, d]) == Apply(Apply(Apply(Apply(s, a), b), c), d)
  {
    hide Apply;
    RunLast(s, [], a);
    RunLast(s, [a], b);
    RunLast(s, [a, b], c);
    RunLast(s, [a, b, c], d);
    assert [] + [a] == [a] && [a] + [b] == [a, b] && [a, b] + [c] == [a, b, c] && [a, b, c] + [d] == [a, b, c, d];
  }

  lemma {:induction false} RivalsSubmitTwice(s: State, i: ThreadId, j: ThreadId)
    requires i in s.threads && j in s.threads && Rivals(s.threads[i], s.threads[j])
    requires s.threads[i].call !in s.rows && s.threads[j].call !in s.rows
    ensures Run(s, Race(i, j)).log == s.log +
      [Submit(s.threads[i].process, s.threads[i].call), Submit(s.threads[j].process, s.threads[j].call)]
    ensures !OncePerSlot(Run(s, Race(i, j)))
  {
    var r := Race(i, j);
    RunFour(s, r[0], r[1], r[2], r[3]);
    var s1 := Apply(s, r[0]);
    var s2 := Apply(s1, r[1]);
    var s3 := Apply(s2, r[2]);
    var t := Apply(s3, r[3]);
    assert s1.threads == s.threads[i := s.threads[i].(phase := Sending(s.threads[i].phase.item))];
    assert s2.threads == s1.threads[j := s.threads[j].(phase := Sending(s.threads[j].phase.item))];
    assert s3.log == s.log + [Submit(s.threads[i].process, s.threads[i].call)];
    assert t.log[|s.log|].call.slot == t.log[|s.log| + 1].call.slot;
  }

  lemma {:induction false} RunThen(s: State, a: seq<Event>, b: seq<Event>)
    ensures Run(s, a + b) == Run(Run(s, a), b)
  {
    hide Apply;
    if b == [] {
      assert a + b == a;
    } else {
      var front, last := b[..|b| - 1], b[|b| - 1];
      assert a + b == (a + front) + [last] && b == front + [last];
      RunThen(s, a, front);
      RunLast(s, a + front, last);
      RunLast(Run(s, a), front, last);
    }
  }

  /** At no moment of the run could two threads, by reserving and submitting next, make a second submission. */
  ghost predicate SurvivesEveryRace(events: seq<Event>) {
    forall n, i, j :: 0 <= n <= |events| ==> OncePerSlot(Run(Initial(), events[..n] + Race(i, j)))
  }

  lemma {:induction false} RacingCreatesNoRivals(s: State, ev: Event)
    requires !Contended(s) && (ev.Reserve? || ev.SubmitToProvider?)
    ensures !Contended(Apply(s, ev))
  {
    hide Apply;
    var t := Apply(s, ev);
    forall i, j | i in t.threads && j in t.threads && t.threads[i].phase.Reserving? && t.threads[j].phase.Reserving?
      ensures !Rivals(t.threads[i], t.threads[j])
    {
      ReservingComesFromLookup(s, ev, i);
      ReservingComesFromLookup(s, ev, j);
      assert !Rivals(s.threads[i], s.threads[j]);
    }
  }

  lemma {:induction false} UncontendedSurvives(events: seq<Event>, i: ThreadId, j: ThreadId)
    requires NeverContended(events)
    ensures OncePerSlot(Run(Initial(), events + Race(i, j)))
  {
    hide Apply, Run, Contended;
    var r := Race(i, j);
    var e1 := events + [r[0]];
    var e2 := e1 + [r[1]];
    var e3 := e2 + [r[2]];
    var e4 := e3 + [r[3]];
    assert events + r == e4;
    RaceStepKeeps(events, r[0]);
    RaceStepKeeps(e1, r[1]);
    RaceStepKeeps(e2, r[2]);
    RaceStepKeeps(e3, r[3]);
    UncontendedRunsSubmitOnce(e4);
  }

  lemma {:induction false} RaceStepKeeps(events: seq<Event>, ev: Event)
    requires NeverContended(events) && (ev.Reserve? || ev.SubmitToProvider?)
    ensures NeverContended(events + [ev])
  {
    hide Apply, Run, Contended;
    assert events[..|events|] == events;
    RacingCreatesNoRivals(Run(Initial(), events), ev);
    NeverContendedSplits(events, ev);
  }

  /** A run is never one race away from a second submission for an operation and caller key exactly when at no moment
      two requests with different bodies are between lookup and reservation for it. */
  lemma {:induction false} OnceExactlyWhenNeverContended(events: seq<Event>)
    ensures SurvivesEveryRace(events) <==> NeverContended(events)
  {
    hide Apply, Run, Contended, OncePerSlot, Race;
    if NeverContended(events) {
      forall n, i, j | 0 <= n <= |events| ensures OncePerSlot(Run(Initial(), events[..n] + Race(i, j))) {
        assert forall k :: 0 <= k <= n ==> events[..n][..k] == events[..k];
        UncontendedSurvives(events[..n], i, j);
      }
    } else {
      var n := FirstContended(events);
      assert events[..n][..n - 1] == events[..n - 1];
      LosesARace(events[..n]);
      var i, j :| !OncePerSlot(Run(Initial(), events[..n] + Race(i, j)));
    }
  }

  lemma {:induction false} NobodyContends()
    ensures !Contended(Initial())
  {
  }

  lemma {:induction false} FirstContended(events: seq<Event>) returns (n: nat)
    requires !NeverContended(events)
    ensures 0 < n <= |events| && Contended(Run(Initial(), events[..n])) && NeverContended(events[..n - 1])
  {
    hide Apply, Contended;
    assert events[..|events|] == events;
    if events == [] {
      NobodyContends();
    } else {
      var front, ev := events[..|events| - 1], events[|events| - 1];
      assert events == front + [ev];
      NeverContendedSplits(front, ev);
      RunLast(Initial(), front, ev);
      if NeverContended(front) {
        n := |events|;
      } else {
        n := FirstContended(front);
        assert front[..n] == events[..n] && front[..n - 1] == events[..n - 1];
      }
    }
  }

  lemma {:induction false} LosesARace(events: seq<Event>)
    requires events != [] && NeverContended(events[..|events| - 1]) && Contended(Run(Initial(), events))
    ensures exists i, j :: !OncePerSlot(Run(Initial(), events + Race(i, j)))
  {
    hide Apply, Run, OncePerSlot, Race;
    var front, ev := events[..|events| - 1], events[|events| - 1];
    assert events == front + [ev];
    UncontendedRunIsOrderly(front, ev);
    var s := Run(Initial(), events);
    var i, j :| i in s.threads && j in s.threads && Rivals(s.threads[i], s.threads[j]);
    RivalsSubmitTwice(s, i, j);
    RunThen(Initial(), events, Race(i, j));
    assert !OncePerSlot(Run(Initial(), events + Race(i, j)));
  }

  /** A request's way to its reservation. */
  function Arrival(tid: ThreadId, process: ProcessId, call: Call): seq<Event> {
    [Start(tid, process, call), FirstLookup(tid), Enter(tid), Take(tid), SecondLookup(tid)]
  }

  /** A routed request whose key is in nobody's use in its process. */
  ghost predicate Unhindered(s: State, tid: ThreadId) {
    tid in s.threads && s.threads[tid].phase.Routed? && KeyOf(s.threads[tid]) !in s.locks.items
    && LookUp(s.rows, s.threads[tid].call) == None
  }

  lemma {:induction false} EntersAlone(s: State, tid: ThreadId)
    requires Unhindered(s, tid)
    ensures var t, item := Apply(Apply(Apply(s, Enter(tid)), Take(tid)), SecondLookup(tid)), s.locks.next;
      && t.threads == s.threads[tid := s.threads[tid].(phase := Reserving(item))] && t.locks.next == item + 1
      && t.locks.items == s.locks.items[KeyOf(s.threads[tid]) := item]
      && item in t.locks.cells && t.locks.cells[item] == Cell(1, true)
      && t.rows == s.rows && t.dead == s.dead && t.log == s.log
  {
    hide LookUp;
    var item, me := s.locks.next, s.threads[tid];
    var s1 := Apply(s, Enter(tid));
    assert s1.threads == s.threads[tid := me.(phase := Waiting(item))] && s1.locks.cells[item] == Cell(1, false);
    var s2 := Apply(s1, Take(tid));
    assert s2.threads == s.threads[tid := me.(phase := Holding(item))];
  }

  lemma {:induction false} Arrives(s: State, tid: ThreadId, process: ProcessId, call: Call)
    requires tid !in s.threads && process !in s.dead && LockKey(process, call.slot) !in s.locks.items
    requires LookUp(s.rows, call) == None
    ensures var t, item := Run(s, Arrival(tid, process, call)), s.locks.next;
      && t.threads == s.threads[tid := Thread(process, call, Reserving(item))] && t.locks.next == item + 1
      && t.locks.items == s.locks.items[LockKey(process, call.slot) := item]
      && item in t.locks.cells && t.locks.cells[item] == Cell(1, true)
      && t.rows == s.rows && t.dead == s.dead && t.log == s.log
  {
    hide LookUp, EnterLocks, DropLocks, SetHeld;
    var a := Arrival(tid, process, call);
    RunFour(s, a[0], a[1], a[2], a[3]);
    assert a == [a[0], a[1], a[2], a[3]] + [a[4]];
    RunLast(s, [a[0], a[1], a[2], a[3]], a[4]);
    hide Run;
    var t := Apply(Apply(s, a[0]), a[1]);
    assert t == s.(threads := s.threads[tid := Thread(process, call, Routed)]);
    hide Apply;
    EntersAlone(t, tid);
    assert s.threads[tid := Thread(process, call, Routed)][tid := Thread(process, call, Reserving(s.locks.next))] ==
           s.threads[tid := Thread(process, call, Reserving(s.locks.next))];
  }

  /** Two processes get two requests with one key and different bodies at the same time, and both are paid for. */
  function Overlap(slot: Slot): seq<Event> {
    Arrival(0, 0, Call(slot, 0)) + Arrival(1, 1, Call(slot, 1)) + Race(0, 1)
  }

  lemma {:induction false} OverlappingProcessesSubmitTwice(slot: Slot)
    ensures Run(Initial(), Overlap(slot)).log == [Submit(0, Call(slot, 0)), Submit(1, Call(slot, 1))]
  {
    var a, b := Arrival(0, 0, Call(slot, 0)), Arrival(1, 1, Call(slot, 1));
    RunThen(Initial(), a + b, Race(0, 1));
    RunThen(Initial(), a, b);
    hide Run, Arrival, Race;
    assert Matching(map[], slot) == {};
    Arrives(Initial(), 0, 0, Call(slot, 0));
    Arrives(Run(Initial(), a), 1, 1, Call(slot, 1));
    RivalsSubmitTwice(Run(Initial(), a + b), 0, 1);
  }

  // ---------------------------------------------------------------- one process at a time

  /** At most one process has requests in flight. */
  ghost predicate Alone(s: State) {
    forall i, j :: i in s.threads && j in s.threads ==> s.threads[i].process == s.threads[j].process
  }

  ghost predicate AlwaysAlone(events: seq<Event>) {
    forall n :: 0 <= n <= |events| ==> Alone(Run(Initial(), events[..n]))
  }

  /** The lock keeps a process from contending with itself. */
  lemma {:induction false} AloneIsUncontended(s: State)
    requires Alone(s) && LocksSound(s)
    ensures !Contended(s)
  {
    hide LocksSound;
    forall i, j | i in s.threads && j in s.threads ensures !Rivals(s.threads[i], s.threads[j]) {
      if Rivals(s.threads[i], s.threads[j]) { MutualExclusion(s, i, j); }
    }
  }

  /** A deployment that never runs two processes at once submits at most once per operation and caller key for
      good, restarts included: the durable row outlives the lock. */
  lemma {:induction false} RestartsDoNotResubmit(events: seq<Event>)
    requires AlwaysAlone(events)
    ensures NeverContended(events) && OncePerSlot(Run(Initial(), events))
  {
    hide Run, LocksSound, Alone, Contended, OncePerSlot;
    forall n | 0 <= n <= |events| ensures !Contended(Run(Initial(), events[..n])) {
      RunKeepsInv(events[..n]);
      AloneIsUncontended(Run(Initial(), events[..n]));
    }
    UncontendedRunsSubmitOnce(events);
  }

  // ---------------------------------------------------------------- the lock table and the reservation, in place

  class ProfileLocks {
    var items: map<LockKey, ItemId>
    var cells: map<ItemId, Cell>
    var next: ItemId

    ghost function Contents(): Locks
      reads this
    {
      Locks(items, cells, next)
    }

    constructor ()
      ensures Contents() == Locks(map[], map[], 0)
    {
      items, cells, next := map[], map[], 0;
    }

    /** The first half of acquire, under the table's mutex. */
    method Enter(key: LockKey) returns (item: ItemId)
      requires forall k :: k in items ==> items[k] in cells
      modifies this
      ensures (Contents(), item) == EnterLocks(old(Contents()), key)
    {
      if key !in items {
        cells := cells[next := Cell(0, false)];
        items := items[key := next];
        next := next + 1;
      }
      item := items[key];
      cells := cells[item := cells[item].(refs := cells[item].refs + 1)];
      assert key !in old(items) ==> cells == old(cells)[item := Cell(1, false)];
    }

    method TryTake(item: ItemId) returns (taken: bool)
      requires item in cells
      modifies this
      ensures taken <==> !old(cells[item].held)
      ensures Contents() == if taken then SetHeld(old(Contents()), item, true) else old(Contents())
    {
      taken := !cells[item].held;
      if taken {
        cells := cells[item := cells[item].(held := true)];
      }
    }

    method Release(item: ItemId)
      requires item in cells
      modifies this
      ensures Contents() == SetHeld(old(Contents()), item, false)
    {
      cells := cells[item := cells[item].(held := false)];
    }

    method DropReference(key: LockKey, item: ItemId)
      requires item in cells
      modifies this
      ensures Contents() == DropLocks(old(Contents()), key, item)
    {
      cells := cells[item := cells[item].(refs := cells[item].refs - 1)];
      if cells[item].refs == 0 {
        items := items - {key};
      }
    }
  }

  class ReservationTable {
    var rows: map<Call, RowState>

    constructor ()
      ensures rows == map[]
    {
      rows := map[];
    }

    /** Inserts the reservation unless a row with its id exists; false with a row means somebody else owns it. */
    method Reserve(call: Call, available: bool) returns (created: bool, existing: Option<RowState>)
      modifies this
      ensures created <==> available && call !in old(rows)
      ensures rows == if created then old(rows)[call := Submitting] else old(rows)
      ensures existing == if call in old(rows) then Some(old(rows)[call]) else None
    {
      if call in rows {
        return false, Some(rows[call]);
      }
      if !available {
        return false, None;
      }
      rows := rows[call := Submitting];
      return true, None;
    }

    /** Reads the rows of a slot the way the query does and decides. */
    method Find(call: Call) returns (found: Option<Result>)
      ensures found == LookUp(rows, call)
    {
      var matches: set<Call> := {};
      var todo := rows.Keys;
      while todo != {}
        invariant todo <= rows.Keys
        invariant matches == set c | c in rows && c !in todo && c.slot == call.slot
        decreases todo
      {
        var c :| c in todo;
        todo := todo - {c};
        if c.slot == call.slot {
          matches := matches + {c};
        }
      }
      assert matches == Matching(rows, call.slot);
      if matches == {} {
        return None;
      }
      if |matches| > 1 {
        TwoMeansConflict(matches, call);
        return Some(Conflict);
      }
      var only :| only in matches;
      OneIsAll(matches, only);
      if only.fingerprint != call.fingerprint {
        return Some(Conflict);
      }
      return Some(if rows[only] == Accepted then Reused(Accepted) else InProgress);
    }
  }

  lemma {:induction false} TwoMeansConflict(matches: set<Call>, call: Call)
    requires |matches| > 1
    ensures matches != {} && matches != {call}
  {
  }

  lemma {:induction false} OneIsAll(matches: set<Call>, only: Call)
    requires |matches| <= 1 && only in matches
    ensures matches == {only}
  {
    assert |matches - {only}| == 0;
    assert forall c :: c in matches ==> c == only || c in matches - {only};
  }
}
