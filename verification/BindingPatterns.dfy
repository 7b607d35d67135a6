/** Channel protocol bindings (db/profile.go:612-736): which rule a model name is served by, and why no two rules
    of equal precedence can both claim it. */
module BindingPatterns {
  import opened Wrappers

  type BindingId = nat  // 0 is "not saved yet"

  datatype Binding = Binding(
    channel: nat,    // 0 is blank
    operation: nat,  // 0 is blank
    pattern: string,
    profile: nat,
    revision: int,
    precedence: int,
    enabled: bool)

  type Bindings = map<BindingId, Binding>

  // ---------------------------------------------------------------- patterns

  predicate Wildcard(pattern: string) { pattern != "" && pattern[|pattern| - 1] == '*' }

  /** What a wildcard pattern asks the model to start with. */
  function Stem(pattern: string): string {
    if Wildcard(pattern) then pattern[..|pattern| - 1] else pattern
  }

  predicate HasPrefix(s: string, prefix: string) { prefix <= s }

  /** The test a lookup applies to one rule. */
  predicate Matches(pattern: string, model: string) {
    pattern == model || pattern == "*" || (Wildcard(pattern) && HasPrefix(model, Stem(pattern)))
  }

  predicate Overlap(left: string, right: string) {
    if left == "*" || right == "*" then true
    else if !Wildcard(left) && !Wildcard(right) then left == right
    else if Wildcard(left) && Wildcard(right) then HasPrefix(Stem(left), Stem(right)) || HasPrefix(Stem(right), Stem(left))
    else if Wildcard(left) then HasPrefix(right, Stem(left))
    else HasPrefix(left, Stem(right))
  }

  /** A model both patterns select, when there is one. */
  function SharedModel(left: string, right: string): string {
    if left == "*" then right
    else if right == "*" then left
    else if Wildcard(left) && Wildcard(right) then (if HasPrefix(Stem(left), Stem(right)) then Stem(left) else Stem(right))
    else if Wildcard(left) then right
    else left
  }

  lemma {:induction false} PrefixesOfOneString(a: string, b: string, s: string)
    requires a <= s && b <= s
    ensures a <= b || b <= a
  {
    if |a| <= |b| {
      assert a == b[..|a|];
    } else {
      assert b == a[..|b|];
    }
  }

  /** The overlap test answers true exactly when some model name is selected by both patterns. */
  lemma {:induction false} OverlapExactlyWhenShared(left: string, right: string)
    ensures Overlap(left, right) <==> exists model :: Matches(left, model) && Matches(right, model)
  {
    if Overlap(left, right) {
      OverlapShares(left, right);
    }
    forall model | Matches(left, model) && Matches(right, model) ensures Overlap(left, right) {
      SharedOverlaps(left, right, model);
    }
  }

  lemma {:induction false} OverlapShares(left: string, right: string)
    requires Overlap(left, right)
    ensures Matches(left, SharedModel(left, right)) && Matches(right, SharedModel(left, right))
  {
  }

  lemma {:induction false} SharedOverlaps(left: string, right: string, model: string)
    requires Matches(left, model) && Matches(right, model)
    ensures Overlap(left, right)
  {
    if left != "*" && right != "*" && Wildcard(left) && Wildcard(right) {
      StemMatches(left, model);
      StemMatches(right, model);
      PrefixesOfOneString(Stem(left), Stem(right), model);
    }
  }

  lemma {:induction false} StemMatches(pattern: string, model: string)
    requires Wildcard(pattern) && pattern != "*" && Matches(pattern, model)
    ensures Stem(pattern) <= model
  {
  }

  // ---------------------------------------------------------------- the table

  datatype Error = MissingIdentity | PatternConflict | NotFound

  type RequestId = nat

  /** A binding to be saved: over the row `id`, or as a new row when that is 0. */
  datatype Pending = Pending(id: BindingId, binding: Binding)

  /** The rows, the next row id, and the saves that are between their peer check and their write. */
  datatype Table = Table(bindings: Bindings, next: BindingId, ready: map<RequestId, Pending>)

  predicate Peers(a: Binding, b: Binding) {
    a.channel == b.channel && a.operation == b.operation && a.precedence == b.precedence
  }

  predicate Clashes(bindings: Bindings, id: BindingId, b: Binding) {
    exists other :: other in bindings && (id == 0 || other != id) && Peers(bindings[other], b)
                    && Overlap(b.pattern, bindings[other].pattern)
  }

  /** What the first half of a save refuses. */
  function Refusal(bindings: Bindings, id: BindingId, b: Binding): Option<Error> {
    if b.channel == 0 || b.operation == 0 || b.pattern == "" then Some(MissingIdentity)
    else if Clashes(bindings, id, b) then Some(PatternConflict)
    else None
  }

  function RowOf(t: Table, id: BindingId): BindingId { if id == 0 then t.next else id }

  /** The second half of a save, which looks at nothing. */
  function Put(t: Table, p: Pending): Table {
    t.(bindings := t.bindings[RowOf(t, p.id) := p.binding], next := if t.next <= p.id then p.id + 1 else t.next + 1)
  }

  /** A save is two statements unless its caller owns a transaction: `CheckPeers`, then `Write`. Inside a
      transaction it is one step, `Save`. */
  datatype Op =
    | CheckPeers(request: RequestId, id: BindingId, binding: Binding)
    | Write(request: RequestId)
    | Save(id: BindingId, binding: Binding)
    | SetEnabled(id: BindingId, enabled: bool)
    | Delete(id: BindingId)

  function Apply(t: Table, op: Op): Table {
    match op
    case CheckPeers(request, id, b) =>
      if Refusal(t.bindings, id, b).Some? then t else t.(ready := t.ready[request := Pending(id, b)])
    case Write(request) =>
      if request in t.ready then Put(t, t.ready[request]).(ready := t.ready - {request}) else t
    case Save(id, b) => if Refusal(t.bindings, id, b).Some? then t else Put(t, Pending(id, b))
    case SetEnabled(id, enabled) =>
      if id in t.bindings then t.(bindings := t.bindings[id := t.bindings[id].(enabled := enabled)]) else t
    case Delete(id) => t.(bindings := t.bindings - {id})
  }

  function Run(t: Table, ops: seq<Op>): Table {
    if ops == [] then t else Apply(Run(t, ops[..|ops| - 1]), ops[|ops| - 1])
  }

  const EMPTY_TABLE: Table := Table(map[], 1, map[])

  /** Row ids are handed out in order. */
  ghost predicate Numbered(t: Table) { t.next > 0 && forall id :: id in t.bindings ==> id < t.next }

  lemma {:induction false} ApplyKeepsNumbered(t: Table, op: Op)
    requires Numbered(t)
    ensures Numbered(Apply(t, op))
  {
    hide Clashes;
  }

  lemma {:induction false} RunKeepsNumbered(t: Table, ops: seq<Op>)
    requires Numbered(t)
    ensures Numbered(Run(t, ops))
  {
    hide Numbered, Apply;
    if ops == [] {
    } else {
      RunKeepsNumbered(t, ops[..|ops| - 1]);
      ApplyKeepsNumbered(Run(t, ops[..|ops| - 1]), ops[|ops| - 1]);
    }
  }

  // ---------------------------------------------------------------- when the table is unambiguous

  /** No two rules for the same channel, operation and precedence select a common model. */
  ghost predicate Unambiguous(bindings: Bindings) {
    forall i, j :: i in bindings && j in bindings && i != j && Peers(bindings[i], bindings[j]) ==>
      !Overlap(bindings[i].pattern, bindings[j].pattern)
  }

  lemma {:induction false} OverlapIsSymmetric(left: string, right: string)
    ensures Overlap(left, right) == Overlap(right, left)
  {
  }

  /** A write leaves an unambiguous table unambiguous exactly when it clashes with none of the rows it finds. */
  lemma {:induction false} PutIsSafeExactlyWithoutClash(t: Table, p: Pending)
    requires Numbered(t) && Unambiguous(t.bindings)
    ensures Unambiguous(Put(t, p).bindings) <==> !Clashes(t.bindings, p.id, p.binding)
  {
    hide Overlap;
    var row, after := RowOf(t, p.id), Put(t, p).bindings;
    forall i, j | i in after && j in after && i != j && Peers(after[i], after[j]) && !Clashes(t.bindings, p.id, p.binding)
      ensures !Overlap(after[i].pattern, after[j].pattern)
    {
      OverlapIsSymmetric(after[i].pattern, after[j].pattern);
    }
    if Clashes(t.bindings, p.id, p.binding) {
      var other :| other in t.bindings && (p.id == 0 || other != p.id) && Peers(t.bindings[other], p.binding)
                   && Overlap(p.binding.pattern, t.bindings[other].pattern);
      assert other != row && Peers(after[row], after[other]) && Overlap(after[row].pattern, after[other].pattern);
    }
  }

  /** If this step writes a checked save, the rows it finds do not clash with it. */
  predicate FindsNoClash(t: Table, op: Op) {
    op.Write? && op.request in t.ready ==> !Clashes(t.bindings, t.ready[op.request].id, t.ready[op.request].binding)
  }

  lemma {:induction false} OthersKeepUnambiguous(t: Table, op: Op)
    requires Unambiguous(t.bindings) && !op.Write? && !op.Save?
    ensures Unambiguous(Apply(t, op).bindings)
  {
    hide Overlap, Clashes;
    var after := Apply(t, op).bindings;
    forall i, j | i in after && j in after && i != j && Peers(after[i], after[j])
      ensures !Overlap(after[i].pattern, after[j].pattern)
    {
      assert Peers(t.bindings[i], t.bindings[j]);
    }
  }

  lemma {:induction false} StepIsSafeExactlyWithoutClash(t: Table, op: Op)
    requires Numbered(t) && Unambiguous(t.bindings)
    ensures Unambiguous(Apply(t, op).bindings) <==> FindsNoClash(t, op)
  {
    hide Unambiguous, Clashes, Numbered, Put;
    match op
    case Write(request) => if request in t.ready { PutIsSafeExactlyWithoutClash(t, t.ready[request]); }
    case Save(id, b) => PutIsSafeExactlyWithoutClash(t, Pending(id, b));
    case _ => OthersKeepUnambiguous(t, op);
  }

  ghost predicate AlwaysUnambiguous(t: Table, ops: seq<Op>) {
    forall n :: 0 <= n <= |ops| ==> Unambiguous(Run(t, ops[..n]).bindings)
  }

  ghost predicate EveryWriteClear(t: Table, ops: seq<Op>) {
    forall i :: 0 <= i < |ops| ==> FindsNoClash(Run(t, ops[..i]), ops[i])
  }

  lemma {:induction false} RunsSplit(t: Table, front: seq<Op>, op: Op)
    ensures AlwaysUnambiguous(t, front + [op]) <==>
            AlwaysUnambiguous(t, front) && Unambiguous(Apply(Run(t, front), op).bindings)
    ensures EveryWriteClear(t, front + [op]) <==> EveryWriteClear(t, front) && FindsNoClash(Run(t, front), op)
  {
    hide Run, Apply, FindsNoClash, Unambiguous;
    var ops := front + [op];
    assert forall n :: 0 <= n <= |front| ==> ops[..n] == front[..n];
    assert ops[..|front|] == front[..|front|] == front && ops[..|ops|] == ops && ops[|front|] == op;
    RunLast(t, front, op);
    forall i | 0 <= i < |front|
      ensures FindsNoClash(Run(t, ops[..i]), ops[i]) <==> FindsNoClash(Run(t, front[..i]), front[i])
    {
      assert ops[..i] == front[..i] && ops[i] == front[i];
    }
  }

  lemma {:induction false} RunLast(t: Table, front: seq<Op>, op: Op)
    ensures Run(t, front + [op]) == Apply(Run(t, front), op)
  {
    assert (front + [op])[..|front|] == front;
  }

  /** Over any interleaving of checks, writes, saves in transactions, toggles and deletions, the table is unambiguous
      at every moment exactly when no write finds a row that has come to clash with it since its check. */
  lemma {:induction false} UnambiguousExactlyWhenWritesAreClear(t: Table, ops: seq<Op>)
    requires Numbered(t) && Unambiguous(t.bindings)
    ensures AlwaysUnambiguous(t, ops) <==> EveryWriteClear(t, ops)
  {
    if ops == [] {
    } else {
      var front, op := ops[..|ops| - 1], ops[|ops| - 1];
      assert ops == front + [op];
      UnambiguousExactlyWhenWritesAreClear(t, front);
      RunsSplit(t, front, op);
      RunKeepsNumbered(t, front);
      WholeRun(t, front);
      hide Unambiguous, AlwaysUnambiguous, EveryWriteClear, Run, Apply, FindsNoClash, Numbered;
      if AlwaysUnambiguous(t, front) { StepIsSafeExactlyWithoutClash(Run(t, front), op); }
    }
  }

  lemma {:induction false} WholeRun(t: Table, ops: seq<Op>)
    ensures AlwaysUnambiguous(t, ops) ==> Unambiguous(Run(t, ops).bindings)
  {
    assert ops[..|ops|] == ops;
  }

  /** Two creates of overlapping patterns that check before either writes: both pass, and the table is ambiguous. */
  function RacingSaves(): seq<Op> {
    [CheckPeers(1, 0, Binding(1, 1, "gpt-*", 1, 1, 0, true)), CheckPeers(2, 0, Binding(1, 1, "gpt-4*", 2, 1, 0, true)),
     Write(1), Write(2)]
  }

  lemma {:induction false} RacingSavesAreAmbiguous()
    ensures var t := Run(EMPTY_TABLE, RacingSaves());
      && t.bindings.Keys == {1, 2} && Peers(t.bindings[1], t.bindings[2])
      && Matches(t.bindings[1].pattern, "gpt-4o") && Matches(t.bindings[2].pattern, "gpt-4o")
      && !Unambiguous(t.bindings)
  {
    var ops := RacingSaves();
    var one, two := ops[0].binding, ops[1].binding;
    var t2 := EMPTY_TABLE.(ready := map[1 := Pending(0, one), 2 := Pending(0, two)]);
    RunLast(EMPTY_TABLE, [], ops[0]);
    RunLast(EMPTY_TABLE, [ops[0]], ops[1]);
    assert [] + [ops[0]] == [ops[0]] && [ops[0]] + [ops[1]] == ops[..2];
    DisjointChecks(one, two);
    assert Run(EMPTY_TABLE, ops[..2]) == t2;
    assert ops[..3][..2] == ops[..2] && ops[..4][..3] == ops[..3] && ops[..4] == ops;
    var t := Run(EMPTY_TABLE, ops);
    assert t.bindings == map[1 := one, 2 := two];
    assert "gpt-4o"[..4] == "gpt-" && "gpt-4o"[..5] == "gpt-4";
    SharedOverlaps(one.pattern, two.pattern, "gpt-4o");
  }

  lemma {:induction false} DisjointChecks(one: Binding, two: Binding)
    requires one.channel != 0 && one.operation != 0 && one.pattern != ""
    requires two.channel != 0 && two.operation != 0 && two.pattern != ""
    ensures Apply(Apply(EMPTY_TABLE, CheckPeers(1, 0, one)), CheckPeers(2, 0, two)) ==
            EMPTY_TABLE.(ready := map[1 := Pending(0, one), 2 := Pending(0, two)])
  {
  }

  // ---------------------------------------------------------------- saves that keep apart

  /** Two saves that cannot clash: other peers, disjoint patterns, or the same row. */
  predicate Apart(p: Pending, q: Pending) {
    || !Peers(p.binding, q.binding)
    || !Overlap(p.binding.pattern, q.binding.pattern)
    || (p.id != 0 && p.id == q.id)
  }

  /** A save starts only when it is apart from every save between its check and its write; with no such save, as when
      saves run one at a time, that always holds. */
  predicate Orderly(t: Table, op: Op) {
    (op.CheckPeers? ==> forall r :: r in t.ready && r != op.request ==> Apart(Pending(op.id, op.binding), t.ready[r]))
    && (op.Save? ==> forall r :: r in t.ready ==> Apart(Pending(op.id, op.binding), t.ready[r]))
  }

  ghost predicate ReadyClear(t: Table) {
    && (forall r :: r in t.ready ==> !Clashes(t.bindings, t.ready[r].id, t.ready[r].binding))
    && (forall q, r :: q in t.ready && r in t.ready && q != r ==> Apart(t.ready[q], t.ready[r]))
  }

  lemma {:induction false} ApartIsSymmetric(p: Pending, q: Pending)
    ensures Apart(p, q) == Apart(q, p)
  {
    OverlapIsSymmetric(p.binding.pattern, q.binding.pattern);
  }

  lemma {:induction false} PutLeavesApartClear(t: Table, p: Pending, q: Pending)
    requires Apart(p, q) && !Clashes(t.bindings, q.id, q.binding)
    ensures !Clashes(Put(t, p).bindings, q.id, q.binding)
  {
    OverlapIsSymmetric(p.binding.pattern, q.binding.pattern);
    hide Overlap;
  }

  lemma {:induction false} FewerOrToggledStaysClear(t: Table, op: Op, q: Pending)
    requires (op.SetEnabled? || op.Delete?) && !Clashes(t.bindings, q.id, q.binding)
    ensures !Clashes(Apply(t, op).bindings, q.id, q.binding)
  {
    hide Overlap;
    var after := Apply(t, op).bindings;
    forall other | other in after && (q.id == 0 || other != q.id) && Peers(after[other], q.binding)
      ensures !Overlap(q.binding.pattern, after[other].pattern)
    {
      assert Peers(t.bindings[other], q.binding);
    }
  }

  lemma {:induction false} OrderlyKeepsReadyClear(t: Table, op: Op)
    requires ReadyClear(t) && Orderly(t, op)
    ensures ReadyClear(Apply(t, op)) && FindsNoClash(t, op)
  {
    hide Clashes, Apart, Put;
    var u := Apply(t, op);
    match op
    case CheckPeers(request, id, b) =>
      forall r | r in t.ready { ApartIsSymmetric(Pending(id, b), t.ready[r]); }
      RefusesClash(t, id, b);
    case Write(request) =>
      if request in t.ready {
        PutLeavesReady(t, t.ready[request]);
        forall r | r in u.ready ensures !Clashes(u.bindings, u.ready[r].id, u.ready[r].binding) {
          PutLeavesApartClear(t, t.ready[request], t.ready[r]);
        }
      }
    case Save(id, b) =>
      PutLeavesReady(t, Pending(id, b));
      forall r | r in u.ready ensures !Clashes(u.bindings, u.ready[r].id, u.ready[r].binding) {
        PutLeavesApartClear(t, Pending(id, b), t.ready[r]);
      }
    case _ =>
      forall r | r in u.ready ensures !Clashes(u.bindings, u.ready[r].id, u.ready[r].binding) {
        FewerOrToggledStaysClear(t, op, t.ready[r]);
      }
  }

  lemma {:induction false} RefusesClash(t: Table, id: BindingId, b: Binding)
    ensures Refusal(t.bindings, id, b).None? ==> !Clashes(t.bindings, id, b)
  {
  }

  lemma {:induction false} PutLeavesReady(t: Table, p: Pending)
    ensures Put(t, p).ready == t.ready
  {
  }

  /** Saves that start only when they are apart from the ones in flight, in particular saves that run one at a time,
      find no clash at any write, so the table stays unambiguous. */
  lemma {:induction false} OrderlySavesAreClear(t: Table, ops: seq<Op>)
    requires ReadyClear(t) && forall i :: 0 <= i < |ops| ==> Orderly(Run(t, ops[..i]), ops[i])
    ensures EveryWriteClear(t, ops) && ReadyClear(Run(t, ops))
  {
    hide Apply, ReadyClear, Orderly, FindsNoClash;
    if ops == [] {
    } else {
      var front, op := ops[..|ops| - 1], ops[|ops| - 1];
      assert ops == front + [op];
      forall i | 0 <= i < |front| ensures Orderly(Run(t, front[..i]), front[i]) {
        assert front[..i] == ops[..i] && front[i] == ops[i];
      }
      OrderlySavesAreClear(t, front);
      OrderlyKeepsReadyClear(Run(t, front), op);
      RunsSplit(t, front, op);
    }
  }

  // ---------------------------------------------------------------- lookup

  predicate Candidate(bindings: Bindings, id: BindingId, channel: nat, operation: nat) {
    id in bindings && bindings[id].channel == channel && bindings[id].operation == operation && bindings[id].enabled
  }

  /** The rows of the lookup's query: every enabled rule of the channel and operation once, by falling
      precedence. Rows of equal precedence may come in any order. */
  ghost predicate Listed(rows: seq<BindingId>, bindings: Bindings, channel: nat, operation: nat) {
    && (forall id :: id in rows <==> Candidate(bindings, id, channel, operation))
    && (forall i :: 0 <= i < |rows| ==> rows[i] in bindings)
    && (forall i, j :: 0 <= i < j < |rows| ==> bindings[rows[i]].precedence >= bindings[rows[j]].precedence)
  }

  /** The one rule that serves a model: it matches, and every other matching rule is of lower precedence. */
  ghost predicate Serves(bindings: Bindings, id: BindingId, channel: nat, operation: nat, model: string) {
    && Candidate(bindings, id, channel, operation) && Matches(bindings[id].pattern, model)
    && (forall other :: Candidate(bindings, other, channel, operation) && Matches(bindings[other].pattern, model) ==>
          other == id || bindings[other].precedence < bindings[id].precedence)
  }

  method Find(rows: seq<BindingId>, bindings: Bindings, channel: nat, operation: nat, model: string)
    returns (found: Option<BindingId>)
    requires Listed(rows, bindings, channel, operation)
    ensures found.None? ==> forall id :: Candidate(bindings, id, channel, operation) ==> !Matches(bindings[id].pattern, model)
    ensures found.Some? ==>
      && Candidate(bindings, found.value, channel, operation) && Matches(bindings[found.value].pattern, model)
      && forall id :: Candidate(bindings, id, channel, operation) && Matches(bindings[id].pattern, model) ==>
           bindings[id].precedence <= bindings[found.value].precedence
    ensures found.Some? && Unambiguous(bindings) ==> Serves(bindings, found.value, channel, operation, model)
  {
    hide Matches, Overlap;
    for i := 0 to |rows|
      invariant forall k :: 0 <= k < i ==> !Matches(bindings[rows[k]].pattern, model)
    {
      var b := bindings[rows[i]];
      if Matches(b.pattern, model) {
        if Unambiguous(bindings) { FirstServes(rows, bindings, channel, operation, model, i); }
        return Some(rows[i]);
      }
    }
    return None;
  }

  lemma {:induction false} FirstServes(
    rows: seq<BindingId>, bindings: Bindings, channel: nat, operation: nat, model: string, i: nat)
    requires Listed(rows, bindings, channel, operation) && Unambiguous(bindings) && i < |rows|
    requires Matches(bindings[rows[i]].pattern, model)
    requires forall k :: 0 <= k < i ==> !Matches(bindings[rows[k]].pattern, model)
    ensures Serves(bindings, rows[i], channel, operation, model)
  {
    hide Matches, Overlap;
    var id := rows[i];
    assert id in rows;
    forall other | Candidate(bindings, other, channel, operation) && Matches(bindings[other].pattern, model) && other != id
      ensures bindings[other].precedence < bindings[id].precedence
    {
      var k :| 0 <= k < |rows| && rows[k] == other;
      AtMostOnePerPrecedence(bindings, id, other, model);
    }
  }

  /** At most one rule per channel, operation and precedence selects a model. */
  lemma {:induction false} AtMostOnePerPrecedence(bindings: Bindings, i: BindingId, j: BindingId, model: string)
    requires Unambiguous(bindings) && i in bindings && j in bindings
    requires Matches(bindings[i].pattern, model) && Matches(bindings[j].pattern, model)
    ensures i == j || !Peers(bindings[i], bindings[j])
  {
    SharedOverlaps(bindings[i].pattern, bindings[j].pattern, model);
  }

  /** No model is selected by two rules of one channel, operation and precedence. */
  ghost predicate OneRuleEach(bindings: Bindings) {
    forall i, j, model ::
      i in bindings && j in bindings && i != j && Peers(bindings[i], bindings[j]) && Matches(bindings[i].pattern, model) ==>
        !Matches(bindings[j].pattern, model)
  }

  lemma {:induction false} OneRuleEachMeansUnambiguous(bindings: Bindings)
    ensures OneRuleEach(bindings) <==> Unambiguous(bindings)
  {
    hide Overlap, Matches;
    if OneRuleEach(bindings) {
      forall i, j | i in bindings && j in bindings && i != j && Peers(bindings[i], bindings[j])
        ensures !Overlap(bindings[i].pattern, bindings[j].pattern)
      {
        OverlapExactlyWhenShared(bindings[i].pattern, bindings[j].pattern);
      }
    }
    if Unambiguous(bindings) {
      forall i, j, model | i in bindings && j in bindings && i != j && Peers(bindings[i], bindings[j])
        && Matches(bindings[i].pattern, model) ensures !Matches(bindings[j].pattern, model)
      {
        OverlapExactlyWhenShared(bindings[i].pattern, bindings[j].pattern);
      }
    }
  }

  /** Over any interleaving of saves, toggles and deletions, enabled or not, at every moment at most one rule of a
      channel, operation and precedence selects a model, exactly when no write finds a clash. */
  lemma {:induction false} OneRulePerPrecedence(ops: seq<Op>)
    ensures (forall n :: 0 <= n <= |ops| ==> OneRuleEach(Run(EMPTY_TABLE, ops[..n]).bindings))
            <==> EveryWriteClear(EMPTY_TABLE, ops)
  {
    UnambiguousExactlyWhenWritesAreClear(EMPTY_TABLE, ops);
    hide Run, EveryWriteClear, OneRuleEach, Unambiguous;
    forall n | 0 <= n <= |ops|
      ensures OneRuleEach(Run(EMPTY_TABLE, ops[..n]).bindings) <==> Unambiguous(Run(EMPTY_TABLE, ops[..n]).bindings)
    {
      OneRuleEachMeansUnambiguous(Run(EMPTY_TABLE, ops[..n]).bindings);
    }
  }

  lemma {:induction false} ServedByOne(
    bindings: Bindings, i: BindingId, j: BindingId, channel: nat, operation: nat, model: string)
    requires Serves(bindings, i, channel, operation, model) && Serves(bindings, j, channel, operation, model)
    ensures i == j
  {
    hide Matches;
  }

  /** After any interleaving whose writes find no clash, which rule serves a model does not depend on the order in
      which rules of equal precedence are listed, hence not on their row ids. */
  lemma {:induction false} LookupIgnoresRowIds(
    ops: seq<Op>, channel: nat, operation: nat, model: string, one: seq<BindingId>, two: seq<BindingId>, i: nat, j: nat)
    requires EveryWriteClear(EMPTY_TABLE, ops)
    requires var t := Run(EMPTY_TABLE, ops);
      && Listed(one, t.bindings, channel, operation) && Listed(two, t.bindings, channel, operation)
      && i < |one| && Matches(t.bindings[one[i]].pattern, model)
      && (forall k :: 0 <= k < i ==> !Matches(t.bindings[one[k]].pattern, model))
      && j < |two| && Matches(t.bindings[two[j]].pattern, model)
      && (forall k :: 0 <= k < j ==> !Matches(t.bindings[two[k]].pattern, model))
    ensures one[i] == two[j]
  {
    var t := Run(EMPTY_TABLE, ops);
    UnambiguousExactlyWhenWritesAreClear(EMPTY_TABLE, ops);
    WholeRun(EMPTY_TABLE, ops);
    hide Matches, Run, Unambiguous;
    FirstServes(one, t.bindings, channel, operation, model, i);
    FirstServes(two, t.bindings, channel, operation, model, j);
    ServedByOne(t.bindings, one[i], two[j], channel, operation, model);
  }

  class BindingTable {
    var rows: Bindings
    var next: BindingId
    var ready: map<RequestId, Pending>  // requests between the two statements of a save

    ghost function Contents(): Table
      reads this
    {
      Table(rows, next, ready)
    }

    constructor ()
      ensures Contents() == EMPTY_TABLE
    {
      rows, next, ready := map[], 1, map[];
    }

    /** The query and the overlap tests of a save. */
    method FindRefusal(id: BindingId, b: Binding) returns (err: Option<Error>)
      ensures err == Refusal(rows, id, b)
    {
      hide Overlap;
      if b.channel == 0 || b.operation == 0 || b.pattern == "" {
        return Some(MissingIdentity);
      }
      var peers := rows.Keys;
      while peers != {}
        invariant peers <= rows.Keys
        invariant forall other :: other in rows && other !in peers && (id == 0 || other != id) && Peers(rows[other], b) ==>
                    !Overlap(b.pattern, rows[other].pattern)
        decreases peers
      {
        var other :| other in peers;
        if (id == 0 || other != id) && Peers(rows[other], b) && Overlap(b.pattern, rows[other].pattern) {
          return Some(PatternConflict);
        }
        peers := peers - {other};
      }
      return None;
    }

    method CheckPeers(request: RequestId, id: BindingId, b: Binding) returns (err: Option<Error>)
      modifies this
      ensures err == Refusal(old(rows), id, b)
      ensures Contents() == Apply(old(Contents()), Op.CheckPeers(request, id, b))
    {
      err := FindRefusal(id, b);
      if err.None? {
        ready := ready[request := Pending(id, b)];
      }
    }

    method Insert(id: BindingId, b: Binding)
      modifies this
      ensures Contents() == Put(old(Contents()), Pending(id, b))
    {
      rows := rows[(if id == 0 then next else id) := b];
      next := if next <= id then id + 1 else next + 1;
    }

    method Write(request: RequestId)
      requires request in ready
      modifies this
      ensures Contents() == Apply(old(Contents()), Op.Write(request))
    {
      Insert(ready[request].id, ready[request].binding);
      ready := ready - {request};
    }

    /** Both statements inside the caller's transaction. */
    method Save(id: BindingId, b: Binding) returns (err: Option<Error>)
      modifies this
      ensures err == Refusal(old(rows), id, b)
      ensures Contents() == Apply(old(Contents()), Op.Save(id, b))
    {
      err := FindRefusal(id, b);
      if err.None? {
        Insert(id, b);
      }
    }

    method SetEnabled(id: BindingId, enabled: bool)
      requires id in rows
      modifies this
      ensures Contents() == Apply(old(Contents()), Op.SetEnabled(id, enabled))
    {
      rows := rows[id := rows[id].(enabled := enabled)];
    }

    method Delete(id: BindingId) returns (err: Option<Error>)
      modifies this
      ensures Contents() == Apply(old(Contents()), Op.Delete(id)) && (err.Some? <==> id !in old(rows))
    {
      if id !in rows {
        return Some(NotFound);
      }
      rows := rows - {id};
      return None;
    }
  }
}
