/** What the transactions of `TaskRuns` do, said without its step functions: observations are counted, leases shut
    others out until they end, due rows can be claimed, and statuses move along a fixed order. */
module TaskRunEffects {
  import opened Wrappers
  import opened TaskRuns

  // ---------------------------------------------------------------- what is counted

  function Tally(records: seq<PollRecord>, success: bool): nat {
    if records == [] then 0
    else Tally(records[..|records| - 1], success) + if records[|records| - 1].success == success then 1 else 0
  }

  /** The records from n on failed, and the one before them did not. */
  ghost predicate FailingSince(records: seq<PollRecord>, n: nat) {
    && n <= |records| && (forall k :: n <= k < |records| ==> !records[k].success)
    && (n > 0 ==> records[n - 1].success)
  }

  /** The last positive status of the records, or the one of before. */
  ghost predicate LastStatus(records: seq<PollRecord>, before: int, after: int) {
    || (after == before && forall k :: 0 <= k < |records| ==> records[k].httpStatus <= 0)
    || exists m :: 0 <= m < |records| && records[m].httpStatus == after > 0
                   && forall k :: m < k < |records| ==> records[k].httpStatus <= 0
  }

  /** What the records add to a row's counters. */
  ghost predicate Counts(before: TaskRun, records: seq<PollRecord>, after: TaskRun) {
    && after.pollCount == before.pollCount + |records|
    && after.pollSuccesses == before.pollSuccesses + Tally(records, true)
    && after.pollFailures == before.pollFailures + Tally(records, false)
    && (exists n :: FailingSince(records, n)
                    && after.consecutiveErrors == |records| - n + if n == 0 then before.consecutiveErrors else 0)
    && LastStatus(records, before.lastHttpStatus, after.lastHttpStatus)
  }

  lemma {:induction false} CountsOneMore(before: TaskRun, records: seq<PollRecord>, between: TaskRun, r: PollRecord)
    requires Counts(before, records, between)
    ensures Counts(before, records + [r], Polled(between, r))
  {
    var all := records + [r];
    assert all[..|records|] == records;
    StatusOneMore(records, before.lastHttpStatus, between.lastHttpStatus, r);
    var n :| FailingSince(records, n)
             && between.consecutiveErrors == |records| - n + if n == 0 then before.consecutiveErrors else 0;
    FailingOneMore(records, n, r);
    hide FailingSince, LastStatus;
  }

  lemma {:induction false} FailingOneMore(records: seq<PollRecord>, n: nat, r: PollRecord)
    requires FailingSince(records, n)
    ensures FailingSince(records + [r], if r.success then |records| + 1 else n)
  {
  }

  lemma {:induction false} StatusOneMore(records: seq<PollRecord>, before: int, between: int, r: PollRecord)
    requires LastStatus(records, before, between)
    ensures LastStatus(records + [r], before, if r.httpStatus > 0 then r.httpStatus else between)
  {
    var all := records + [r];
    assert forall k :: 0 <= k < |records| ==> all[k] == records[k];
    if r.httpStatus > 0 {
      assert all[|records|].httpStatus == r.httpStatus;
    } else if m :| 0 <= m < |records| && records[m].httpStatus == between > 0
                   && forall k :: m < k < |records| ==> records[k].httpStatus <= 0 {
      assert all[m].httpStatus == between;
    }
  }

  lemma {:induction false} PolledAllCounts(run: TaskRun, records: seq<PollRecord>)
    ensures Counts(run, records, PolledAll(run, records))
  {
    if records == [] {
      assert FailingSince(records, 0);
    } else {
      var front, last := records[..|records| - 1], records[|records| - 1];
      PolledAllCounts(run, front);
      assert records == front + [last];
      hide Counts, Polled;
      CountsOneMore(run, front, PolledAll(run, front), last);
    }
  }

  /** The observations of a row that a transaction records when it goes through. */
  function Observations(op: Op, id: RunId): seq<PollRecord>
    decreases op, 0
  {
    match op
    case RecordPoll(i, success, httpStatus) => if i == id then [PollRecord(success, httpStatus)] else []
    case RecordPollForLease(i, _, success, httpStatus) => if i == id then [PollRecord(success, httpStatus)] else []
    case RecordBatch(i, records) => if i == id then records else []
    case WithLease(_, _, body) => AllObservations(body, id)
    case _ => []
  }

  function AllObservations(ops: seq<Op>, id: RunId): seq<PollRecord>
    decreases ops, 1
  {
    if ops == [] then [] else Observations(ops[0], id) + AllObservations(ops[1..], id)
  }

  /** The row's counters, and whatever else of it they are compared with, are those of polling `records`. */
  predicate SameCounters(a: TaskRun, b: TaskRun) {
    a.pollCount == b.pollCount && a.pollSuccesses == b.pollSuccesses && a.pollFailures == b.pollFailures
    && a.consecutiveErrors == b.consecutiveErrors && a.lastHttpStatus == b.lastHttpStatus
  }

  lemma {:induction false} PolledAllTwice(run: TaskRun, a: seq<PollRecord>, b: seq<PollRecord>)
    ensures PolledAll(PolledAll(run, a), b) == PolledAll(run, a + b)
  {
    if b == [] {
      assert a + b == a;
    } else {
      PolledAllTwice(run, a, b[..|b| - 1]);
      assert (a + b)[..|a + b| - 1] == a + b[..|b| - 1];
    }
  }

  lemma {:induction false} SameCountersPoll(a: TaskRun, b: TaskRun, records: seq<PollRecord>)
    requires SameCounters(a, b)
    ensures SameCounters(PolledAll(a, records), PolledAll(b, records))
  {
    if records == [] {
    } else {
      SameCountersPoll(a, b, records[..|records| - 1]);
    }
  }

  lemma {:induction false} OnePolled(run: TaskRun, r: PollRecord)
    ensures PolledAll(run, [r]) == Polled(run, r)
  {
    assert PolledAll(run, [r][..0]) == run;
  }

  lemma {:induction false} StepCounts(s: State, now: Time, op: Op, id: RunId)
    requires id in s.runs && Apply(s, now, op).err.None?
    ensures var t := Apply(s, now, op).state;
      id in t.runs && SameCounters(t.runs[id], PolledAll(s.runs[id], Observations(op, id)))
    decreases op, 1
  {
    match op
    case RecordPoll(_, success, httpStatus) => OnePolled(s.runs[id], PollRecord(success, httpStatus));
    case RecordPollForLease(_, _, success, httpStatus) => OnePolled(s.runs[id], PollRecord(success, httpStatus));
    case WithLease(_, _, body) => StepsCount(s, now, body, id);
    case _ =>
  }

  lemma {:induction false} StepsCount(s: State, now: Time, ops: seq<Op>, id: RunId)
    requires id in s.runs && ApplyAll(s, now, ops).err.None?
    ensures var t := ApplyAll(s, now, ops).state;
      id in t.runs && SameCounters(t.runs[id], PolledAll(s.runs[id], AllObservations(ops, id)))
    decreases ops, 0
  {
    if ops == [] {
    } else {
      var t := Apply(s, now, ops[0]).state;
      StepCounts(s, now, ops[0], id);
      StepsCount(t, now, ops[1..], id);
      SameCountersPoll(t.runs[id], PolledAll(s.runs[id], Observations(ops[0], id)), AllObservations(ops[1..], id));
      PolledAllTwice(s.runs[id], Observations(ops[0], id), AllObservations(ops[1..], id));
    }
  }

  /** The observations of a row recorded by the transactions of a run from i to j that went through, in order. */
  function Recorded(states: seq<State>, events: seq<Event>, i: nat, j: nat, id: RunId): seq<PollRecord>
    requires i <= j <= |events| < |states|
  {
    if i == j then []
    else
      var e := events[j - 1];
      Recorded(states, events, i, j - 1, id)
      + if Apply(states[j - 1], e.now, e.op).err.None? then Observations(e.op, id) else []
  }

  lemma {:induction false} RunPolls(states: seq<State>, events: seq<Event>, i: nat, j: nat, id: RunId)
    requires Run(states, events) && i <= j < |states| && id in states[i].runs
    ensures id in states[j].runs
    ensures SameCounters(states[j].runs[id], PolledAll(states[i].runs[id], Recorded(states, events, i, j, id)))
    decreases j - i
  {
    hide Apply, Inv, Observations, PolledAll;
    if i == j {
      NothingPolled(states[i].runs[id]);
    } else {
      RunPolls(states, events, i, j - 1, id);
      var s, e, before := states[j - 1], events[j - 1], Recorded(states, events, i, j - 1, id);
      var added := if Apply(s, e.now, e.op).err.None? then Observations(e.op, id) else [];
      RefusedIsNoChange(s, e.now, e.op);
      if Apply(s, e.now, e.op).err.None? { StepCounts(s, e.now, e.op, id); } else { NothingPolled(s.runs[id]); }
      SameCountersPoll(s.runs[id], PolledAll(states[i].runs[id], before), added);
      PolledAllTwice(states[i].runs[id], before, added);
    }
  }

  lemma {:induction false} NothingPolled(run: TaskRun)
    ensures PolledAll(run, []) == run
  {
  }

  /** Over any stretch of a run a row's counters grow by exactly what was recorded of it: one per success, one per
      failure, the failures since the last success, and the last status that was one. */
  lemma {:induction false} CountersAreWhatWasRecorded(states: seq<State>, events: seq<Event>, i: nat, j: nat, id: RunId)
    requires Run(states, events) && i <= j < |states| && id in states[i].runs
    ensures id in states[j].runs && Counts(states[i].runs[id], Recorded(states, events, i, j, id), states[j].runs[id])
  {
    RunPolls(states, events, i, j, id);
    PolledAllCounts(states[i].runs[id], Recorded(states, events, i, j, id));
    hide Run, Recorded, PolledAll, FailingSince, LastStatus, Tally;
  }

  // ---------------------------------------------------------------- what is left alone

  /** The transaction is about this row. */
  predicate Names(op: Op, id: RunId)
    decreases op
  {
    match op
    case WithLease(_, _, body) => exists k :: 0 <= k < |body| && Names(body[k], id)
    case _ => op.id == id
  }

  /** A transaction leaves every row it does not name as it was. */
  lemma {:induction false} OtherRowsStay(s: State, now: Time, op: Op, id: RunId)
    requires !Names(op, id)
    ensures var t := Apply(s, now, op).state; (id in t.runs <==> id in s.runs) && (id in s.runs ==> t.runs[id] == s.runs[id])
    decreases op, 1
  {
    if op.WithLease? { OtherRowsStayAll(s, now, op.body, id); }
  }

  lemma {:induction false} OtherRowsStayAll(s: State, now: Time, ops: seq<Op>, id: RunId)
    requires forall k :: 0 <= k < |ops| ==> !Names(ops[k], id)
    ensures var t := ApplyAll(s, now, ops).state; (id in t.runs <==> id in s.runs) && (id in s.runs ==> t.runs[id] == s.runs[id])
    decreases ops, 0
  {
    if ops == [] {
    } else {
      OtherRowsStay(s, now, ops[0], id);
      OtherRowsStayAll(Apply(s, now, ops[0]).state, now, ops[1..], id);
    }
  }

  // ---------------------------------------------------------------- when a row can be claimed

  /** A background row that its provider has accepted, and that is neither finished nor waiting for its media. */
  predicate AwaitsPolls(run: TaskRun) {
    && run.polling.Background? && run.providerTaskId.Some?
    && (run.submission.AcceptedSubmission? || run.submission.NoSubmission?)
    && !Storing(run.status) && !Ended(run.status)
  }

  /** A client may poll the row. */
  predicate ClientMayPoll(run: TaskRun) {
    (run.polling.Blank? || run.polling.Client? || run.polling.GatewayWait? || run.polling.Background?) && !Ended(run.status)
  }

  predicate ClaimGoesThrough(s: State, now: Time, id: RunId, lease: int, client: bool) {
    Apply(s, now, if client then Op.ClaimPoll(id, lease) else Op.ClaimDue(id, lease)).err.None?
  }

  /** A fresh row can be claimed for a background poll from its first poll time on, if it waits for polls at all. */
  lemma {:induction false} CreatedIsClaimable(s: State, now: Time, create: Op, later: Time, lease: int)
    requires create.Create? && create.id != 0 && create.id !in s.runs
    ensures Apply(s, now, create).err.None? && create.id in Apply(s, now, create).state.runs
    ensures var t := Apply(s, now, create).state;
      && ClaimGoesThrough(t, later, create.id, lease, false) ==
         (AwaitsPolls(t.runs[create.id]) && (create.nextPollAt.Some? ==> create.nextPollAt.value <= later))
      && ClaimGoesThrough(t, later, create.id, lease, true) == ClientMayPoll(t.runs[create.id])
    ensures var run := Apply(s, now, create).state.runs[create.id];
      && run.status == create.status && run.polling == create.polling && run.submission == create.submission
      && run.providerTaskId == create.providerTaskId && run.outcome == PendingOutcome
      && run.pollCount == run.consecutiveErrors == run.lastHttpStatus == 0
      && run.completedAt == (if Ended(create.status) then Some(now) else None)
  {
  }

  /** A claim shuts every other claim out until its lease ends, and not longer. */
  lemma {:induction false} ClaimLastsItsLease(
    s: State, now: Time, id: RunId, lease: int, client: bool, later: Time, again: int, clientAgain: bool)
    requires Inv(s) && ClaimGoesThrough(s, now, id, lease, client) && now <= later && id != 0
    ensures var t := Apply(s, now, if client then Op.ClaimPoll(id, lease) else Op.ClaimDue(id, lease)).state;
      && HeldBy(t, id, s.nextToken)
      && t.runs[id] == s.runs[id].(leaseOwner := t.runs[id].leaseOwner, leaseExpires := t.runs[id].leaseExpires)
      && ClaimGoesThrough(t, later, id, again, clientAgain) ==
         (later >= now + (if lease > 0 then lease else 120_000)
          && if clientAgain then ClientMayPoll(s.runs[id])
             else AwaitsPolls(s.runs[id]) && (s.runs[id].nextPollAt.Some? ==> s.runs[id].nextPollAt.value <= later))
  {
  }

  /** The worker that claimed a row is the one its fenced operations let through, while the lease runs. */
  lemma {:induction false} ClaimantMayWork(
    s: State, now: Time, id: RunId, lease: int, client: bool, later: Time, record: PollRecord, more: int)
    requires ClaimGoesThrough(s, now, id, lease, client) && id != 0 && more > 0
    ensures var t := Apply(s, now, if client then Op.ClaimPoll(id, lease) else Op.ClaimDue(id, lease)).state;
      var live := later < now + (if lease > 0 then lease else 120_000);
      && Apply(t, later, Renew(id, Some(s.nextToken), more)).err.None? == live
      && Apply(t, later, RecordPollForLease(id, Some(s.nextToken), record.success, record.httpStatus)).err.None? == live
      && Apply(t, later, WithLease(id, Some(s.nextToken), [])).err.None? == live
      && Apply(t, later, UpdateStatusForLease(id, Some(s.nextToken), s.runs[id].status, NoOutcome)).err.None? == live
      && Apply(t, later, Release(id, Some(s.nextToken))).err.None?
  {
  }

  /** A row comes under a fresh token by a claim of it alone. */
  lemma {:induction false} OnlyClaimsGrant(s: State, now: Time, op: Op, id: RunId)
    requires Inv(s) && !op.WithLease?
    ensures HeldBy(Apply(s, now, op).state, id, s.nextToken) <==> IsClaim(op, id) && Apply(s, now, op).err.None?
  {
    assert id in s.runs ==> RowInv(s.runs[id], s.nextToken);
    if op.RecordBatch? && op.id in s.runs { PolledAllKeepsCounters(s.runs[op.id], op.records, s.nextToken); }
    hide Inv, PolledAll;
  }

  /** A renewal under a live lease makes it end at the new time, and changes nothing else. */
  lemma {:induction false} RenewalMovesTheEnd(s: State, now: Time, id: RunId, t: Token, lease: int, later: Time, again: int)
    requires id in s.runs && Leased(s.runs[id], Some(t), now) && lease > 0 && again > 0
    ensures var r := Apply(s, now, Renew(id, Some(t), lease));
      && r.err.None? && r.state == s.(runs := s.runs[id := r.state.runs[id]])
      && r.state.runs[id].(leaseExpires := s.runs[id].leaseExpires) == s.runs[id]
      && Apply(r.state, later, Renew(id, Some(t), again)).err.None? == (later < now + lease)
  {
  }

  /** A released row can be claimed at once; a rescheduled one from its next poll time on. */
  lemma {:induction false} GivingUpFreesTheRow(s: State, now: Time, id: RunId, t: Token, next: Time, later: Time, lease: int)
    requires HeldBy(s, id, t) && id != 0
    ensures var r := Apply(s, now, Release(id, Some(t)));
      && r.err.None? && !HeldBy(r.state, id, t) && ClaimGoesThrough(r.state, later, id, lease, true) == ClientMayPoll(s.runs[id])
      && ClaimGoesThrough(r.state, later, id, lease, false) ==
         (AwaitsPolls(s.runs[id]) && (s.runs[id].nextPollAt.Some? ==> s.runs[id].nextPollAt.value <= later))
    ensures var r := Apply(s, now, Reschedule(id, Some(t), next));
      && r.err.None? && !HeldBy(r.state, id, t) && ClaimGoesThrough(r.state, later, id, lease, true) == ClientMayPoll(s.runs[id])
      && ClaimGoesThrough(r.state, later, id, lease, false) == (AwaitsPolls(s.runs[id]) && next <= later)
  {
  }

  // ---------------------------------------------------------------- statuses

  predicate Waiting(s: TaskStatus) { s.Queued? || s.Pending? || s.Accepted? }

  predicate Working(s: TaskStatus) { s.Processing? || s.Running? || s.InProgress? }

  predicate Storing(s: TaskStatus) { s.Materializing? || s.StorageRetryPending? }

  predicate Ended(s: TaskStatus) {
    s.Completed? || s.Succeeded? || s.Failed? || s.Cancelled? || s.Canceled? || s.Expired? || s.Timeout? || s.TimedOut?
  }

  /** An ended task keeps its status; otherwise waiting comes before working, working before storing and storing before
      the end, moves within a stage go both ways, and an unknown status can be left but not entered. */
  predicate MayFollow(from: TaskStatus, to: TaskStatus) {
    if Ended(from) then to == from
    else if Storing(from) then Storing(to) || Ended(to)
    else if Working(from) then Working(to) || Storing(to) || Ended(to)
    else if Waiting(from) then !to.Unrecognised?
    else true
  }

  /** A status write goes through exactly when the new status may follow the old one; it then sets the status, keeps the
      old outcome if it brings none, stamps the end, and leaves the rest of the row alone. */
  lemma {:induction false} StatusIsWrittenExactlyWhenItMayFollow(
    s: State, now: Time, id: RunId, status: TaskStatus, outcome: Outcome)
    requires id != 0 && id in s.runs
    ensures var r, run := Apply(s, now, UpdateStatus(id, status, outcome)), s.runs[id];
      && r.err.None? == MayFollow(run.status, status)
      && (r.err.Some? ==> r.err == Some(if Ended(run.status) && Ended(status) then AlreadyTerminal else StateRegression))
      && (r.err.None? ==> r.state == s.(runs := s.runs[id := run.(
            status := status, outcome := if outcome == NoOutcome then run.outcome else outcome,
            completedAt := if Ended(status) then Some(now) else run.completedAt)]))
    ensures forall t :: Leased(s.runs[id], Some(t), now) ==>
      Apply(s, now, UpdateStatusForLease(id, Some(t), status, outcome)) == Apply(s, now, UpdateStatus(id, status, outcome))
  {
  }

  // ---------------------------------------------------------------- refusals

  /** The operation is refused without a row id, and a fenced one without an owner. */
  predicate LacksIdentity(op: Op) {
    match op
    case ClaimDue(_, _) | Renew(_, _, _) | Release(_, _) => false
    case Reschedule(id, owner, _) => id == 0 || owner.None?
    case RecordPollForLease(id, owner, _, _) => id == 0 || owner.None?
    case UpdateStatusForLease(id, owner, _, _) => id == 0 || owner.None?
    case WithLease(id, owner, _) => id == 0 || owner.None?
    case _ => op.id == 0
  }

  /** A write without a lease to a row that is not there. */
  predicate NamesNoRow(s: State, op: Op)
    requires !op.WithLease?
  {
    !LacksIdentity(op) && op.id !in s.runs && (op.RecordPoll? || op.UpdateStatus? || (op.RecordBatch? && op.records != []))
  }

  /** What an error says: no identity, no row, a row already there, somebody else's lease, or nothing to claim. */
  lemma {:induction false} RefusalSaysWhy(s: State, now: Time, op: Op)
    requires !op.WithLease?
    ensures var err := Apply(s, now, op).err;
      && (err == Some(InvalidIdentity) <==> LacksIdentity(op))
      && (err == Some(NotFound) <==> NamesNoRow(s, op))
      && (err == Some(AlreadyExists) <==> op.Create? && !LacksIdentity(op) && op.id in s.runs)
      && (err == Some(LeaseUnavailable) ==> op.ClaimDue? || op.ClaimPoll?)
      && (err == Some(LeaseOwner) ==>
            op.Renew? || op.Release? || op.Reschedule? || op.RecordPollForLease? || op.UpdateStatusForLease?)
      && (op.Release? || op.Reschedule? ==> (err.None? <==>
            !LacksIdentity(op) && op.id in s.runs && s.runs[op.id].leaseOwner == op.owner))
  {
  }

  // ---------------------------------------------------------------- a callback under a lease

  /** The operations as transactions of their own, one after another, if all go through. */
  function InOrder(s: State, now: Time, ops: seq<Op>): Option<State> {
    if ops == [] then Some(s)
    else
      match InOrder(s, now, ops[..|ops| - 1])
      case None => None
      case Some(t) =>
        var r := Apply(t, now, ops[|ops| - 1]);
        if r.err.None? then Some(r.state) else None
  }

  lemma {:induction false} InOrderFromFront(s: State, now: Time, op: Op, ops: seq<Op>)
    ensures InOrder(s, now, [op] + ops) ==
      var r := Apply(s, now, op); if r.err.None? then InOrder(r.state, now, ops) else None
  {
    hide Apply;
    if ops == [] {
      assert [op] + ops == [op] && [op][..0] == [];
    } else {
      InOrderFromFront(s, now, op, ops[..|ops| - 1]);
      assert ([op] + ops)[..|ops|] == [op] + ops[..|ops| - 1];
    }
  }

  lemma {:induction false} ApplyAllIsInOrder(s: State, now: Time, ops: seq<Op>)
    ensures InOrder(s, now, ops) == var r := ApplyAll(s, now, ops); if r.err.None? then Some(r.state) else None
    decreases |ops|
  {
    hide Apply;
    if ops == [] {
    } else {
      ApplyAllIsInOrder(Apply(s, now, ops[0]).state, now, ops[1..]);
      assert ops == [ops[0]] + ops[1..];
      InOrderFromFront(s, now, ops[0], ops[1..]);
    }
  }

  /** A callback goes through exactly under a live lease and if each of its operations would go through on its own after
      the ones before it; it then leaves what those would leave, and otherwise nothing changes and the refusal is the
      callback's own, unless a blank identity or a lost lease kept it from running. */
  lemma {:induction false} CallbackIsItsOperations(s: State, now: Time, id: RunId, owner: Option<Token>, body: seq<Op>)
    ensures var r := Apply(s, now, WithLease(id, owner, body));
      if id == 0 || owner.None? then r == Step(s, Some(InvalidIdentity))
      else if id !in s.runs || !Leased(s.runs[id], owner, now) then r == Step(s, Some(LeaseOwner))
      else if InOrder(s, now, body).Some? then r == Step(InOrder(s, now, body).value, None)
      else r.err.Some? && r.err == ApplyAll(s, now, body).err && r.state == s
  {
    ApplyAllIsInOrder(s, now, body);
  }
}
