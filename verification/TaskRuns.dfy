/** Durable task runs (db/task.go, db/task_lease.go): the row, its poll lease, its poll counters and
    its status. `Apply` gives the meaning of every transaction as a function on the table; the class
    `TaskRunStore` runs the same transactions in place and is proved against it. */
module TaskRuns {
  import opened Wrappers

  type RunId = nat  // 0 is the blank id, which every caller-facing check refuses
  type Token = nat  // the random part of a lease owner: never drawn twice
  type Time = int

  const DEFAULT_LEASE: int := 120_000  // two minutes, in milliseconds

  /** Status names the code tells apart; letter case and surrounding blanks are already normalised. */
  datatype TaskStatus =
    | Queued | Pending | Accepted
    | Processing | Running | InProgress
    | Materializing | StorageRetryPending
    | Completed | Succeeded | Failed | Cancelled | Canceled | Expired | Timeout | TimedOut
    | Unrecognised(text: string)

  function StatusRank(s: TaskStatus): nat {
    match s
    case Queued | Pending | Accepted => 1
    case Processing | Running | InProgress => 2
    case Materializing | StorageRetryPending => 3
    case Unrecognised(_) => 0
    case _ => 4
  }

  predicate IsTerminal(s: TaskStatus) { StatusRank(s) == 4 }

  datatype Outcome = NoOutcome | PendingOutcome | Success | OtherOutcome(text: string)

  datatype Submission = NoSubmission | Submitting | AcceptedSubmission | Rejected | SubmissionUnknown

  /** A provider's own task id. */
  type ProviderId = string

  datatype PollingMode = Off | Blank | Client | GatewayWait | Background

  datatype TaskRun = TaskRun(
    status: TaskStatus,
    outcome: Outcome,
    polling: PollingMode,
    submission: Submission,
    providerTaskId: Option<ProviderId>,
    pollCount: nat,
    pollSuccesses: nat,
    pollFailures: nat,
    consecutiveErrors: nat,
    lastHttpStatus: int,
    nextPollAt: Option<Time>,
    leaseOwner: Option<Token>,
    leaseExpires: Option<Time>,
    completedAt: Option<Time>)

  datatype State = State(runs: map<RunId, TaskRun>, nextToken: Token)

  datatype Error =
    | NotFound | AlreadyExists | InvalidIdentity
    | LeaseUnavailable | LeaseOwner
    | StateRegression | AlreadyTerminal

  datatype PollRecord = PollRecord(success: bool, httpStatus: int)

  /** One transaction. An owner of None is the blank string. Claims name the row they pick; the code
      picks the one that is due first, so quantifying over the pick covers every queue order. */
  datatype Op =
    | Create(id: RunId, status: TaskStatus, polling: PollingMode, submission: Submission, providerTaskId: Option<ProviderId>, nextPollAt: Option<Time>)
    | ClaimDue(id: RunId, lease: int)
    | ClaimPoll(id: RunId, lease: int)
    | Renew(id: RunId, owner: Option<Token>, lease: int)
    | Release(id: RunId, owner: Option<Token>)
    | Reschedule(id: RunId, owner: Option<Token>, next: Time)
    | RecordPoll(id: RunId, success: bool, httpStatus: int)
    | RecordPollForLease(id: RunId, owner: Option<Token>, success: bool, httpStatus: int)
    | RecordBatch(id: RunId, records: seq<PollRecord>)
    | UpdateStatus(id: RunId, status: TaskStatus, outcome: Outcome)
    | UpdateStatusForLease(id: RunId, owner: Option<Token>, status: TaskStatus, outcome: Outcome)
    | WithLease(id: RunId, owner: Option<Token>, body: seq<Op>)

  datatype Step = Step(state: State, err: Option<Error>)

  // ---------------------------------------------------------------- rows

  predicate Leased(run: TaskRun, owner: Option<Token>, now: Time) {
    owner.Some? && run.leaseOwner == owner && run.leaseExpires.Some? && run.leaseExpires.value > now
  }

  /** The row's lease is absent or over. */
  predicate LeaseFree(run: TaskRun, now: Time) {
    run.leaseExpires.None? || run.leaseExpires.value <= now
  }

  function EffectiveLease(lease: int): (d: int)
    ensures d > 0
  {
    if lease <= 0 then DEFAULT_LEASE else lease
  }

  predicate DuePoll(run: TaskRun, now: Time) {
    && run.polling == Background
    && run.status != Materializing && run.status != StorageRetryPending
    && !IsTerminal(run.status)
    && (run.nextPollAt.None? || run.nextPollAt.value <= now)
    && LeaseFree(run, now)
    && (run.submission == AcceptedSubmission || run.submission == NoSubmission)
    && run.providerTaskId.Some?
  }

  predicate ClientPollable(run: TaskRun, now: Time) {
    run.polling != Off && !IsTerminal(run.status) && (run.leaseOwner.None? || LeaseFree(run, now))
  }

  function Claimed(run: TaskRun, token: Token, expires: Time): TaskRun {
    run.(leaseOwner := Some(token), leaseExpires := Some(expires))
  }

  function Unleased(run: TaskRun): TaskRun {
    run.(leaseOwner := None, leaseExpires := None)
  }

  /** One observation on the counters. */
  function Polled(run: TaskRun, record: PollRecord): TaskRun {
    var seen := run.(pollCount := run.pollCount + 1,
                     lastHttpStatus := if record.httpStatus > 0 then record.httpStatus else run.lastHttpStatus);
    if record.success then
      seen.(pollSuccesses := run.pollSuccesses + 1, consecutiveErrors := 0)
    else
      seen.(pollFailures := run.pollFailures + 1, consecutiveErrors := run.consecutiveErrors + 1)
  }

  function PolledAll(run: TaskRun, records: seq<PollRecord>): TaskRun {
    if records == [] then run else Polled(PolledAll(run, records[..|records| - 1]), records[|records| - 1])
  }

  /** Why a status write is refused, if it is. */
  function StatusRefusal(run: TaskRun, status: TaskStatus): Option<Error> {
    if StatusRank(status) < StatusRank(run.status) then Some(StateRegression)
    else if IsTerminal(run.status) && status != run.status then Some(AlreadyTerminal)
    else None
  }

  function StatusWritten(run: TaskRun, status: TaskStatus, outcome: Outcome, now: Time): TaskRun {
    run.(status := status,
         outcome := if outcome != NoOutcome then outcome else run.outcome,
         completedAt := if IsTerminal(status) then Some(now) else run.completedAt)
  }

  /** The row a finished media batch leaves behind (db/media.go). */
  function Promoted(run: TaskRun, now: Time): TaskRun {
    run.(status := Completed, outcome := Success, completedAt := Some(now))
  }

  function NewRun(status: TaskStatus, polling: PollingMode, submission: Submission, providerTaskId: Option<ProviderId>, nextPollAt: Option<Time>, now: Time): TaskRun {
    TaskRun(status, PendingOutcome, polling, submission, providerTaskId, 0, 0, 0, 0, 0, nextPollAt, None, None,
            if IsTerminal(status) then Some(now) else None)
  }

  // ---------------------------------------------------------------- transactions

  function Put(s: State, id: RunId, run: TaskRun): Step {
    Step(s.(runs := s.runs[id := run]), None)
  }

  function Fail(s: State, e: Error): Step { Step(s, Some(e)) }

  function Grant(s: State, now: Time, id: RunId, lease: int): Step
    requires id in s.runs
  {
    var claimed := Claimed(s.runs[id], s.nextToken, now + EffectiveLease(lease));
    Step(State(s.runs[id := claimed], s.nextToken + 1), None)
  }

  function Apply(s: State, now: Time, op: Op): Step
    decreases op, 1
  {
    match op
    case Create(id, status, polling, submission, providerTaskId, nextPollAt) =>
      if id == 0 then Fail(s, InvalidIdentity)
      else if id in s.runs then Fail(s, AlreadyExists)
      else Put(s, id, NewRun(status, polling, submission, providerTaskId, nextPollAt, now))
    case ClaimDue(id, lease) =>
      if id in s.runs && DuePoll(s.runs[id], now) then Grant(s, now, id, lease)
      else Fail(s, LeaseUnavailable)
    case ClaimPoll(id, lease) =>
      if id == 0 then Fail(s, InvalidIdentity)
      else if id in s.runs && ClientPollable(s.runs[id], now) then Grant(s, now, id, lease)
      else Fail(s, LeaseUnavailable)
    case Renew(id, owner, lease) =>
      if lease > 0 && id in s.runs && Leased(s.runs[id], owner, now)
      then Put(s, id, s.runs[id].(leaseExpires := Some(now + lease)))
      else Fail(s, LeaseOwner)
    case Release(id, owner) =>
      if id in s.runs && s.runs[id].leaseOwner == owner then Put(s, id, Unleased(s.runs[id]))
      else Fail(s, LeaseOwner)
    case Reschedule(id, owner, next) =>
      if id == 0 || owner.None? then Fail(s, InvalidIdentity)
      else if id in s.runs && s.runs[id].leaseOwner == owner
      then Put(s, id, Unleased(s.runs[id]).(nextPollAt := Some(next)))
      else Fail(s, LeaseOwner)
    case RecordPoll(id, success, httpStatus) =>
      if id == 0 then Fail(s, InvalidIdentity)
      else if id !in s.runs then Fail(s, NotFound)
      else Put(s, id, Polled(s.runs[id], PollRecord(success, httpStatus)))
    case RecordPollForLease(id, owner, success, httpStatus) =>
      if id == 0 || owner.None? then Fail(s, InvalidIdentity)
      else if id !in s.runs || !Leased(s.runs[id], owner, now) then Fail(s, LeaseOwner)
      else Put(s, id, Polled(s.runs[id], PollRecord(success, httpStatus)))
    case RecordBatch(id, records) =>
      if id == 0 then Fail(s, InvalidIdentity)
      else if records == [] then Step(s, None)
      else if id !in s.runs then Fail(s, NotFound)
      else Put(s, id, PolledAll(s.runs[id], records))
    case UpdateStatus(id, status, outcome) =>
      if id == 0 then Fail(s, InvalidIdentity)
      else if id !in s.runs then Fail(s, NotFound)
      else if StatusRefusal(s.runs[id], status).Some? then Fail(s, StatusRefusal(s.runs[id], status).value)
      else Put(s, id, StatusWritten(s.runs[id], status, outcome, now))
    case UpdateStatusForLease(id, owner, status, outcome) =>
      if id == 0 || owner.None? then Fail(s, InvalidIdentity)
      else if id !in s.runs || !Leased(s.runs[id], owner, now) then Fail(s, LeaseOwner)
      else if StatusRefusal(s.runs[id], status).Some? then Fail(s, StatusRefusal(s.runs[id], status).value)
      else Put(s, id, StatusWritten(s.runs[id], status, outcome, now))
    case WithLease(id, owner, body) =>
      if id == 0 || owner.None? then Fail(s, InvalidIdentity)
      else if id !in s.runs || !Leased(s.runs[id], owner, now) then Fail(s, LeaseOwner)
      else
        var inner := ApplyAll(s, now, body);
        if inner.err.Some? then Fail(s, inner.err.value) else inner
  }

  /** A callback's mutations in order; the first error ends it. */
  function ApplyAll(s: State, now: Time, ops: seq<Op>): Step
    decreases ops, 0
  {
    if ops == [] then Step(s, None)
    else
      var first := Apply(s, now, ops[0]);
      if first.err.Some? then first else ApplyAll(first.state, now, ops[1..])
  }

  // ---------------------------------------------------------------- invariant

  ghost predicate RowInv(run: TaskRun, bound: Token) {
    && (run.leaseOwner.None? <==> run.leaseExpires.None?)
    && (run.leaseOwner.Some? ==> run.leaseOwner.value < bound)
    && run.pollCount == run.pollSuccesses + run.pollFailures
    && run.consecutiveErrors <= run.pollFailures
    && (IsTerminal(run.status) ==> run.completedAt.Some?)
  }

  ghost predicate Inv(s: State) {
    forall id :: id in s.runs ==> RowInv(s.runs[id], s.nextToken)
  }

  /** What no transaction undoes: rows stay, tokens and status ranks only grow, a terminal status is final. */
  ghost predicate Forward(s: State, t: State) {
    && s.nextToken <= t.nextToken
    && forall id :: id in s.runs ==>
         && id in t.runs
         && StatusRank(s.runs[id].status) <= StatusRank(t.runs[id].status)
         && (IsTerminal(s.runs[id].status) ==> t.runs[id].status == s.runs[id].status)
  }

  lemma {:induction false} PolledAllKeepsCounters(run: TaskRun, records: seq<PollRecord>, bound: Token)
    requires RowInv(run, bound)
    ensures RowInv(PolledAll(run, records), bound)
  {
    if records == [] {
    } else {
      PolledAllKeepsCounters(run, records[..|records| - 1], bound);
    }
  }

  /** A refused transaction changes no row. */
  lemma {:induction false} RefusedIsNoChange(s: State, now: Time, op: Op)
    ensures Apply(s, now, op).err.Some? ==> Apply(s, now, op).state == s
  {
  }

  lemma {:induction false} ApplyKeepsInv(s: State, now: Time, op: Op)
    requires Inv(s)
    ensures Inv(Apply(s, now, op).state)
    decreases op, 1
  {
    match op
    case RecordBatch(id, records) =>
      if id in s.runs { PolledAllKeepsCounters(s.runs[id], records, s.nextToken); }
    case WithLease(id, owner, body) => ApplyAllKeepsInv(s, now, body);
    case _ =>
  }

  lemma {:induction false} ApplyAllKeepsInv(s: State, now: Time, ops: seq<Op>)
    requires Inv(s)
    ensures Inv(ApplyAll(s, now, ops).state)
    decreases ops, 0
  {
    if ops == [] {
    } else {
      ApplyKeepsInv(s, now, ops[0]);
      ApplyAllKeepsInv(Apply(s, now, ops[0]).state, now, ops[1..]);
    }
  }

  lemma {:induction false} ApplyMovesForward(s: State, now: Time, op: Op)
    ensures Forward(s, Apply(s, now, op).state)
    decreases op, 1
  {
    hide StatusRank, PolledAll, DuePoll, ClientPollable, Leased;
    match op
    case RecordBatch(id, records) =>
      if id in s.runs { PolledAllKeepsLease(s.runs[id], records); }
    case WithLease(id, owner, body) => ApplyAllMovesForward(s, now, body);
    case _ =>
  }

  lemma {:induction false} ApplyAllMovesForward(s: State, now: Time, ops: seq<Op>)
    ensures Forward(s, ApplyAll(s, now, ops).state)
    decreases ops, 0
  {
    hide StatusRank;
    if ops == [] {
    } else {
      ApplyMovesForward(s, now, ops[0]);
      ApplyAllMovesForward(Apply(s, now, ops[0]).state, now, ops[1..]);
    }
  }

  // ---------------------------------------------------------------- fencing

  /** The row exists and is held by token t, whether or not the lease has run out. */
  ghost predicate HeldBy(s: State, id: RunId, t: Token) {
    id in s.runs && s.runs[id].leaseOwner == Some(t)
  }

  /** The transaction gives up t's lease on the row itself. */
  ghost predicate GivesUp(op: Op, id: RunId, t: Token)
    decreases op
  {
    match op
    case Release(i, owner) => i == id && owner == Some(t)
    case Reschedule(i, owner, _) => i == id && owner == Some(t)
    case WithLease(_, _, body) => exists k :: 0 <= k < |body| && GivesUp(body[k], id, t)
    case _ => false
  }

  /** A live lease outlasts every transaction that does not give it up. */
  lemma {:induction false} LiveLeaseStays(s: State, now: Time, op: Op, id: RunId, t: Token)
    requires id in s.runs && Leased(s.runs[id], Some(t), now) && !GivesUp(op, id, t)
    ensures id in Apply(s, now, op).state.runs && Leased(Apply(s, now, op).state.runs[id], Some(t), now)
    decreases op, 1
  {
    match op
    case RecordBatch(i, records) =>
      if i in s.runs && i == id { PolledAllKeepsLease(s.runs[i], records); }
    case WithLease(_, _, body) => LiveLeaseStaysAll(s, now, body, id, t);
    case _ =>
  }

  lemma {:induction false} LiveLeaseStaysAll(s: State, now: Time, ops: seq<Op>, id: RunId, t: Token)
    requires id in s.runs && Leased(s.runs[id], Some(t), now)
    requires forall k :: 0 <= k < |ops| ==> !GivesUp(ops[k], id, t)
    ensures id in ApplyAll(s, now, ops).state.runs && Leased(ApplyAll(s, now, ops).state.runs[id], Some(t), now)
    decreases ops, 0
  {
    if ops == [] {
    } else {
      LiveLeaseStays(s, now, ops[0], id, t);
      LiveLeaseStaysAll(Apply(s, now, ops[0]).state, now, ops[1..], id, t);
    }
  }

  lemma {:induction false} PolledAllKeepsLease(run: TaskRun, records: seq<PollRecord>)
    ensures PolledAll(run, records).status == run.status
    ensures PolledAll(run, records).leaseOwner == run.leaseOwner
    ensures PolledAll(run, records).leaseExpires == run.leaseExpires
  {
    if records == [] {
    } else {
      PolledAllKeepsLease(run, records[..|records| - 1]);
    }
  }

  /** t was handed out earlier and no longer holds the row. */
  ghost predicate Replaced(s: State, id: RunId, t: Token) {
    t < s.nextToken && !HeldBy(s, id, t)
  }

  /** A replaced token never gets the row back. */
  lemma {:induction false} ReplacedStays(s: State, now: Time, op: Op, id: RunId, t: Token)
    requires Replaced(s, id, t)
    ensures Replaced(Apply(s, now, op).state, id, t)
    decreases op, 1
  {
    match op
    case RecordBatch(i, records) =>
      if i in s.runs { PolledAllKeepsLease(s.runs[i], records); }
    case WithLease(_, _, body) => ReplacedStaysAll(s, now, body, id, t);
    case _ =>
  }

  lemma {:induction false} ReplacedStaysAll(s: State, now: Time, ops: seq<Op>, id: RunId, t: Token)
    requires Replaced(s, id, t)
    ensures Replaced(ApplyAll(s, now, ops).state, id, t)
    decreases ops, 0
  {
    if ops == [] {
    } else {
      ReplacedStays(s, now, ops[0], id, t);
      ReplacedStaysAll(Apply(s, now, ops[0]).state, now, ops[1..], id, t);
    }
  }

  /** The transactions that present a lease on the row. */
  predicate Presents(op: Op, id: RunId, t: Token) {
    match op
    case Renew(i, owner, _) => i == id && owner == Some(t)
    case Release(i, owner) => i == id && owner == Some(t)
    case Reschedule(i, owner, _) => i == id && owner == Some(t)
    case RecordPollForLease(i, owner, _, _) => i == id && owner == Some(t)
    case UpdateStatusForLease(i, owner, _, _) => i == id && owner == Some(t)
    case WithLease(i, owner, _) => i == id && owner == Some(t)
    case _ => false
  }

  // ---------------------------------------------------------------- runs

  datatype Event = Event(now: Time, op: Op)

  /** states[k + 1] follows states[k] by events[k]; the clock readings come in any order. */
  ghost predicate Run(states: seq<State>, events: seq<Event>) {
    && |states| == |events| + 1
    && Inv(states[0])
    && (forall k :: 0 <= k < |events| ==> states[k + 1] == Apply(states[k], events[k].now, events[k].op).state)
  }

  /** Every state of a run satisfies the invariant: lease fields agree, counters add up, terminal runs are stamped. */
  lemma {:induction false} RunKeepsInv(states: seq<State>, events: seq<Event>, j: nat)
    requires Run(states, events) && j < |states|
    ensures Inv(states[j])
  {
    if j == 0 {
    } else {
      RunKeepsInv(states, events, j - 1);
      ApplyKeepsInv(states[j - 1], events[j - 1].now, events[j - 1].op);
    }
  }

  /** Over any stretch of a run no status rank falls and no terminal status changes. */
  lemma {:induction false} StatusMovesForward(states: seq<State>, events: seq<Event>, i: nat, j: nat)
    requires Run(states, events) && i <= j < |states|
    ensures Forward(states[i], states[j])
    decreases j - i
  {
    if i == j {
    } else {
      StatusMovesForward(states, events, i, j - 1);
      ApplyMovesForward(states[j - 1], events[j - 1].now, events[j - 1].op);
    }
  }

  /** When a row passes from one holder to another, somewhere in between the first holder gave the lease
      up or its lease had run out. */
  lemma {:induction false} TakeoverNeedsEnd(states: seq<State>, events: seq<Event>, i: nat, j: nat, id: RunId, t: Token)
    requires Run(states, events) && i <= j < |states|
    requires HeldBy(states[i], id, t) && !HeldBy(states[j], id, t)
    ensures exists k :: i <= k < j && HeldBy(states[k], id, t)
                        && (LeaseFree(states[k].runs[id], events[k].now) || GivesUp(events[k].op, id, t))
    decreases j - i
  {
    RunKeepsInv(states, events, i);
    if HeldBy(states[i + 1], id, t) {
      TakeoverNeedsEnd(states, events, i + 1, j, id, t);
    } else if !LeaseFree(states[i].runs[id], events[i].now) && !GivesUp(events[i].op, id, t) {
      LiveLeaseStays(states[i], events[i].now, events[i].op, id, t);
    }
  }

  lemma {:induction false} ReplacedForever(states: seq<State>, events: seq<Event>, i: nat, j: nat, id: RunId, t: Token)
    requires Run(states, events) && i <= j < |states| && Replaced(states[i], id, t)
    ensures Replaced(states[j], id, t)
    decreases j - i
  {
    if i == j {
    } else {
      ReplacedStays(states[i], events[i].now, events[i].op, id, t);
      ReplacedForever(states, events, i + 1, j, id, t);
    }
  }

  /** Once another claim has taken the row, every later transaction that presents the old token is refused
      and leaves all rows as they were. */
  lemma {:induction false} StaleTokenRefused(states: seq<State>, events: seq<Event>, i: nat, j: nat, id: RunId, t: Token)
    requires Run(states, events) && i <= j < |events|
    requires Replaced(states[i], id, t) && Presents(events[j].op, id, t)
    ensures Apply(states[j], events[j].now, events[j].op).err.Some?
    ensures states[j + 1] == states[j]
  {
    ReplacedForever(states, events, i, j, id, t);
    RefusedIsNoChange(states[j], events[j].now, events[j].op);
  }

  /** Two successful claims of one row hand out different tokens, the later one replaces the earlier, and
      between them the earlier lease was given up or ran out. */
  lemma {:induction false} ClaimsAreSeparated(states: seq<State>, events: seq<Event>, i: nat, j: nat, id: RunId)
    requires Run(states, events) && i < j < |events|
    requires IsClaim(events[i].op, id) && Apply(states[i], events[i].now, events[i].op).err.None?
    requires IsClaim(events[j].op, id) && Apply(states[j], events[j].now, events[j].op).err.None?
    ensures HeldBy(states[i + 1], id, states[i].nextToken) && HeldBy(states[j + 1], id, states[j].nextToken)
    ensures states[i].nextToken < states[j].nextToken
    ensures exists k :: i < k <= j && HeldBy(states[k], id, states[i].nextToken)
                        && (LeaseFree(states[k].runs[id], events[k].now) || GivesUp(events[k].op, id, states[i].nextToken))
  {
    StatusMovesForward(states, events, i + 1, j);
    TakeoverNeedsEnd(states, events, i + 1, j + 1, id, states[i].nextToken);
  }

  predicate IsClaim(op: Op, id: RunId) {
    (op.ClaimDue? || op.ClaimPoll?) && op.id == id
  }

  // ---------------------------------------------------------------- the store

  /** The task table, changed in place one transaction at a time. */
  class TaskRunStore {
    var runs: map<RunId, TaskRun>
    var nextToken: Token

    ghost function Contents(): State
      reads this
    {
      State(runs, nextToken)
    }

    constructor ()
      ensures Contents() == State(map[], 0) && Inv(Contents())
    {
      runs, nextToken := map[], 0;
    }

    method Create(id: RunId, status: TaskStatus, polling: PollingMode, submission: Submission, providerTaskId: Option<ProviderId>, nextPollAt: Option<Time>, now: Time)
      returns (err: Option<Error>)
      modifies this
      ensures Step(Contents(), err) == Apply(old(Contents()), now, Op.Create(id, status, polling, submission, providerTaskId, nextPollAt))
    {
      if id == 0 { return Some(InvalidIdentity); }
      if id in runs { return Some(AlreadyExists); }
      var completed := None;
      if IsTerminal(status) { completed := Some(now); }
      runs := runs[id := TaskRun(status, PendingOutcome, polling, submission, providerTaskId, 0, 0, 0, 0, 0, nextPollAt, None, None, completed)];
      return None;
    }

    method ClaimDue(id: RunId, lease: int, now: Time) returns (err: Option<Error>)
      modifies this
      ensures Step(Contents(), err) == Apply(old(Contents()), now, Op.ClaimDue(id, lease))
      ensures err.None? ==> HeldBy(Contents(), id, old(nextToken))
    {
      if id !in runs { return Some(LeaseUnavailable); }
      var run := runs[id];
      if !DuePoll(run, now) { return Some(LeaseUnavailable); }
      GrantLease(id, lease, now);
      return None;
    }

    method ClaimPoll(id: RunId, lease: int, now: Time) returns (err: Option<Error>)
      modifies this
      ensures Step(Contents(), err) == Apply(old(Contents()), now, Op.ClaimPoll(id, lease))
      ensures err.None? ==> HeldBy(Contents(), id, old(nextToken))
    {
      if id == 0 { return Some(InvalidIdentity); }
      if id !in runs { return Some(LeaseUnavailable); }
      var run := runs[id];
      if !ClientPollable(run, now) { return Some(LeaseUnavailable); }
      GrantLease(id, lease, now);
      return None;
    }

    method GrantLease(id: RunId, lease: int, now: Time)
      requires id in runs
      modifies this
      ensures Contents() == Grant(old(Contents()), now, id, lease).state
    {
      var duration := lease;
      if duration <= 0 { duration := DEFAULT_LEASE; }
      runs := runs[id := runs[id].(leaseOwner := Some(nextToken), leaseExpires := Some(now + duration))];
      nextToken := nextToken + 1;
    }

    method Renew(id: RunId, owner: Option<Token>, lease: int, now: Time) returns (err: Option<Error>)
      modifies this
      ensures Step(Contents(), err) == Apply(old(Contents()), now, Op.Renew(id, owner, lease))
    {
      if lease <= 0 || id !in runs || !Leased(runs[id], owner, now) { return Some(LeaseOwner); }
      runs := runs[id := runs[id].(leaseExpires := Some(now + lease))];
      return None;
    }

    method Release(id: RunId, owner: Option<Token>, now: Time) returns (err: Option<Error>)
      modifies this
      ensures Step(Contents(), err) == Apply(old(Contents()), now, Op.Release(id, owner))
    {
      if id !in runs || runs[id].leaseOwner != owner { return Some(LeaseOwner); }
      runs := runs[id := runs[id].(leaseOwner := None, leaseExpires := None)];
      return None;
    }

    method Reschedule(id: RunId, owner: Option<Token>, next: Time, now: Time) returns (err: Option<Error>)
      modifies this
      ensures Step(Contents(), err) == Apply(old(Contents()), now, Op.Reschedule(id, owner, next))
    {
      if id == 0 || owner.None? { return Some(InvalidIdentity); }
      if id !in runs || runs[id].leaseOwner != owner { return Some(LeaseOwner); }
      runs := runs[id := runs[id].(nextPollAt := Some(next), leaseOwner := None, leaseExpires := None)];
      return None;
    }

    method RecordPoll(id: RunId, success: bool, httpStatus: int, now: Time) returns (err: Option<Error>)
      modifies this
      ensures Step(Contents(), err) == Apply(old(Contents()), now, Op.RecordPoll(id, success, httpStatus))
    {
      if id == 0 { return Some(InvalidIdentity); }
      if id !in runs { return Some(NotFound); }
      Account(id, success, httpStatus);
      return None;
    }

    method RecordPollForLease(id: RunId, owner: Option<Token>, success: bool, httpStatus: int, now: Time) returns (err: Option<Error>)
      modifies this
      ensures Step(Contents(), err) == Apply(old(Contents()), now, Op.RecordPollForLease(id, owner, success, httpStatus))
    {
      if id == 0 || owner.None? { return Some(InvalidIdentity); }
      if id !in runs || !Leased(runs[id], owner, now) { return Some(LeaseOwner); }
      Account(id, success, httpStatus);
      return None;
    }

    method Account(id: RunId, success: bool, httpStatus: int)
      requires id in runs
      modifies this`runs
      ensures runs == old(runs)[id := Polled(old(runs)[id], PollRecord(success, httpStatus))]
    {
      var run := runs[id];
      run := run.(pollCount := run.pollCount + 1);
      if httpStatus > 0 { run := run.(lastHttpStatus := httpStatus); }
      if success {
        run := run.(pollSuccesses := run.pollSuccesses + 1, consecutiveErrors := 0);
      } else {
        run := run.(pollFailures := run.pollFailures + 1, consecutiveErrors := run.consecutiveErrors + 1);
      }
      runs := runs[id := run];
    }

    /** Accumulates a whole batch in local counters and writes the row once. */
    method RecordBatch(id: RunId, records: seq<PollRecord>, now: Time) returns (err: Option<Error>)
      modifies this
      ensures Step(Contents(), err) == Apply(old(Contents()), now, Op.RecordBatch(id, records))
    {
      if id == 0 { return Some(InvalidIdentity); }
      if records == [] { return None; }
      if id !in runs { return Some(NotFound); }
      var run := runs[id];
      var successes, failures, consecutive, lastHttp := run.pollSuccesses, run.pollFailures, run.consecutiveErrors, run.lastHttpStatus;
      for k := 0 to |records|
        invariant PolledAll(run, records[..k]) ==
                  run.(pollCount := run.pollCount + k, pollSuccesses := successes, pollFailures := failures,
                       consecutiveErrors := consecutive, lastHttpStatus := lastHttp)
      {
        assert records[..k + 1][..k] == records[..k];
        if records[k].success {
          successes, consecutive := successes + 1, 0;
        } else {
          failures, consecutive := failures + 1, consecutive + 1;
        }
        if records[k].httpStatus > 0 { lastHttp := records[k].httpStatus; }
      }
      assert records[..|records|] == records;
      runs := runs[id := run.(pollCount := run.pollCount + |records|, pollSuccesses := successes, pollFailures := failures,
                              consecutiveErrors := consecutive, lastHttpStatus := lastHttp)];
      return None;
    }

    method UpdateStatus(id: RunId, status: TaskStatus, outcome: Outcome, now: Time) returns (err: Option<Error>)
      modifies this
      ensures Step(Contents(), err) == Apply(old(Contents()), now, Op.UpdateStatus(id, status, outcome))
    {
      if id == 0 { return Some(InvalidIdentity); }
      if id !in runs { return Some(NotFound); }
      err := WriteStatus(id, status, outcome, now);
    }

    method UpdateStatusForLease(id: RunId, owner: Option<Token>, status: TaskStatus, outcome: Outcome, now: Time) returns (err: Option<Error>)
      modifies this
      ensures Step(Contents(), err) == Apply(old(Contents()), now, Op.UpdateStatusForLease(id, owner, status, outcome))
    {
      if id == 0 || owner.None? { return Some(InvalidIdentity); }
      if id !in runs || !Leased(runs[id], owner, now) { return Some(LeaseOwner); }
      err := WriteStatus(id, status, outcome, now);
    }

    method WriteStatus(id: RunId, status: TaskStatus, outcome: Outcome, now: Time) returns (err: Option<Error>)
      requires id in runs
      modifies this`runs
      ensures err == StatusRefusal(old(runs)[id], status)
      ensures runs == if err.Some? then old(runs) else old(runs)[id := StatusWritten(old(runs)[id], status, outcome, now)]
    {
      var run := runs[id];
      if StatusRank(status) < StatusRank(run.status) { return Some(StateRegression); }
      if IsTerminal(run.status) && status != run.status { return Some(AlreadyTerminal); }
      run := run.(status := status);
      if outcome != NoOutcome { run := run.(outcome := outcome); }
      if IsTerminal(status) { run := run.(completedAt := Some(now)); }
      runs := runs[id := run];
      return None;
    }

    method Promote(id: RunId, now: Time)
      requires id in runs
      modifies this`runs
      ensures runs == old(runs)[id := Promoted(old(runs)[id], now)]
    {
      runs := runs[id := runs[id].(status := Completed, outcome := Success, completedAt := Some(now))];
    }

    /** Runs a callback's mutations under one lease check; any error undoes them all. */
    method WithLease(id: RunId, owner: Option<Token>, body: seq<Op>, now: Time) returns (err: Option<Error>)
      modifies this
      ensures Step(Contents(), err) == Apply(old(Contents()), now, Op.WithLease(id, owner, body))
      decreases body, 1
    {
      if id == 0 || owner.None? { return Some(InvalidIdentity); }
      if id !in runs || !Leased(runs[id], owner, now) { return Some(LeaseOwner); }
      var savedRuns, savedToken := runs, nextToken;
      var k := 0;
      err := None;
      ghost var begin := Contents();
      while k < |body| && err.None?
        invariant 0 <= k <= |body|
        invariant err.None? ==> ApplyAll(begin, now, body) == ApplyAll(Contents(), now, body[k..])
        invariant err.Some? ==> ApplyAll(begin, now, body).err == err
        decreases |body| - k, err.None?
      {
        assert body[k..][0] == body[k] && body[k..][1..] == body[k + 1..];
        err := Execute(body[k], now);
        k := k + 1;
      }
      if err.Some? { runs, nextToken := savedRuns, savedToken; }
    }

    method Execute(op: Op, now: Time) returns (err: Option<Error>)
      modifies this
      ensures Step(Contents(), err) == Apply(old(Contents()), now, op)
      decreases op, 0
    {
      match op
      case Create(id, status, polling, submission, providerTaskId, nextPollAt) =>
        err := Create(id, status, polling, submission, providerTaskId, nextPollAt, now);
      case ClaimDue(id, lease) => err := ClaimDue(id, lease, now);
      case ClaimPoll(id, lease) => err := ClaimPoll(id, lease, now);
      case Renew(id, owner, lease) => err := Renew(id, owner, lease, now);
      case Release(id, owner) => err := Release(id, owner, now);
      case Reschedule(id, owner, next) => err := Reschedule(id, owner, next, now);
      case RecordPoll(id, success, httpStatus) => err := RecordPoll(id, success, httpStatus, now);
      case RecordPollForLease(id, owner, success, httpStatus) => err := RecordPollForLease(id, owner, success, httpStatus, now);
      case RecordBatch(id, records) => err := RecordBatch(id, records, now);
      case UpdateStatus(id, status, outcome) => err := UpdateStatus(id, status, outcome, now);
      case UpdateStatusForLease(id, owner, status, outcome) => err := UpdateStatusForLease(id, owner, status, outcome, now);
      case WithLease(id, owner, body) => err := WithLease(id, owner, body, now);
    }
  }
}
