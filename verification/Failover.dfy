/** The nested retry loops of a direct request: candidates of the route (router/profile_direct.go), credentials of a
    candidate (protocol/executor.go), and the key rotation of the plain adapter (adapter/openai.go). The upstream is
    an arbitrary function from attempts to replies. */
module Failover {
  import opened Wrappers

  datatype Body = Readable | Broken | TooLarge | WriteFails

  datatype Reply = TransportError | Status(code: int, body: Body)

  /** Which key of which candidate was sent the request, and what came back. */
  datatype Attempt = Attempt(candidate: nat, key: nat, reply: Reply)

  datatype Outcome =
    | Answered
    | ExecutorError(status: int, mayHaveSubmitted: bool)
    | OtherError
    | ChannelUnavailable

  // ---------------------------------------------------------------- credentials

  predicate Blank(c: char) { c == ' ' || c == '\t' || c == '\n' || c == '\r' }

  function Trim(s: string): string {
    if s != "" && Blank(s[0]) then Trim(s[1..])
    else if s != "" && Blank(s[|s| - 1]) then Trim(s[..|s| - 1])
    else s
  }

  /** Trimmed, without blanks and repeats, in order of first mention. */
  function NormalizedKeys(keys: seq<string>): seq<string> {
    if keys == [] then []
    else
      var out := NormalizedKeys(keys[..|keys| - 1]);
      var key := Trim(keys[|keys| - 1]);
      if key == "" || key in out then out else out + [key]
  }

  predicate Mentioned(keys: seq<string>, k: string) { exists i :: 0 <= i < |keys| && Trim(keys[i]) == k }

  lemma {:induction false} MentionedSplit(front: seq<string>, last: string, k: string)
    ensures Mentioned(front + [last], k) <==> Mentioned(front, k) || k == Trim(last)
  {
    hide Trim;
    var both := front + [last];
    assert both[|front|] == last && forall i :: 0 <= i < |front| ==> both[i] == front[i];
  }

  lemma {:induction false} NormalizedKeysAreDistinct(keys: seq<string>)
    ensures Distinct(NormalizedKeys(keys))
    ensures forall k :: k in NormalizedKeys(keys) <==> k != "" && Mentioned(keys, k)
  {
    hide Trim, Mentioned;
    if keys == [] {
      NothingMentioned();
    } else {
      var front, last := keys[..|keys| - 1], keys[|keys| - 1];
      assert keys == front + [last];
      NormalizedKeysAreDistinct(front);
      forall k ensures Mentioned(keys, k) <==> Mentioned(front, k) || k == Trim(last) {
        MentionedSplit(front, last, k);
      }
      var before, after := NormalizedKeys(front), NormalizedKeys(keys);
      if after != before { AppendDistinct(before, Trim(last)); }
    }
  }

  ghost predicate Distinct(keys: seq<string>) { forall i, j :: 0 <= i < j < |keys| ==> keys[i] != keys[j] }

  lemma {:induction false} AppendDistinct(keys: seq<string>, key: string)
    requires Distinct(keys) && key !in keys
    ensures Distinct(keys + [key])
  {
  }

  lemma {:induction false} NothingMentioned()
    ensures forall k :: !Mentioned([], k)
  {
  }

  method NormalizeKeys(keys: seq<string>) returns (out: seq<string>)
    ensures out == NormalizedKeys(keys)
  {
    out := [];
    var seen: set<string> := {};
    for i := 0 to |keys|
      invariant out == NormalizedKeys(keys[..i]) && forall k :: k in seen <==> k in out
    {
      assert keys[..i + 1][..i] == keys[..i];
      var key := Trim(keys[i]);
      if key != "" && key !in seen {
        seen := seen + {key};
        out := out + [key];
      }
    }
    assert keys[..|keys|] == keys;
  }

  // ---------------------------------------------------------------- one candidate, key by key

  predicate AuthRejected(reply: Reply) { reply.Status? && (reply.code == 401 || reply.code == 403) }

  predicate Success(code: int) { 200 <= code < 300 }

  /** What the executor reports for the reply it stops at. */
  function Classified(reply: Reply, mutating: bool, stream: bool): Outcome {
    match reply
    case TransportError => ExecutorError(0, mutating)
    case Status(code, body) =>
      if !Success(code) then
        ExecutorError(code, if body == Broken || body == TooLarge then mutating else mutating && code >= 500)
      else if body == Readable then Answered
      else if stream || body == WriteFails then ExecutorError(code, false)
      else ExecutorError(code, mutating)
  }

  /** Whether the client has been sent the response header. */
  predicate HeaderWritten(reply: Reply, stream: bool) {
    reply.Status? && Success(reply.code) && (stream || reply.body == Readable || reply.body == WriteFails)
  }

  type World = (nat, nat) -> Reply

  datatype Try = Try(attempts: seq<Attempt>, outcome: Outcome, headerWritten: bool)

  /** The credential loop from key k on. */
  function RawFrom(candidate: nat, keys: nat, k: nat, mutating: bool, stream: bool, world: World): Try
    requires k < keys
    decreases keys - k
  {
    var attempt := Attempt(candidate, k, world(candidate, k));
    if AuthRejected(attempt.reply) && k + 1 < keys then
      var rest := RawFrom(candidate, keys, k + 1, mutating, stream, world);
      rest.(attempts := [attempt] + rest.attempts)
    else Try([attempt], Classified(attempt.reply, mutating, stream), HeaderWritten(attempt.reply, stream))
  }

  method ExecuteRaw(candidate: nat, keys: seq<string>, mutating: bool, stream: bool, world: World) returns (t: Try)
    ensures var n := |NormalizedKeys(keys)|;
      t == RawFrom(candidate, if n == 0 then 1 else n, 0, mutating, stream, world)
  {
    hide NormalizedKeys, Classified, HeaderWritten;
    var normalized := NormalizeKeys(keys);
    var n := if |normalized| == 0 then 1 else |normalized|;
    var attempts: seq<Attempt> := [];
    var k := 0;
    while true
      invariant 0 <= k < n
      invariant var all, rest := RawFrom(candidate, n, 0, mutating, stream, world), RawFrom(candidate, n, k, mutating, stream, world);
        all == rest.(attempts := attempts + rest.attempts)
      decreases n - k
    {
      var reply := world(candidate, k);
      ghost var before := attempts;
      attempts := attempts + [Attempt(candidate, k, reply)];
      if reply.Status? && (reply.code == 401 || reply.code == 403) && k + 1 < n {
        ghost var rest := RawFrom(candidate, n, k + 1, mutating, stream, world).attempts;
        assert before + ([Attempt(candidate, k, reply)] + rest) == attempts + rest;
        k := k + 1;
        continue;
      }
      return Try(attempts, Classified(reply, mutating, stream), HeaderWritten(reply, stream));
    }
  }

  /** Every attempt before a candidate's last was rejected with 401 or 403, keys are tried in order without gaps,
      and the outcome is that of the last reply. */
  lemma {:induction false} CredentialLoop(candidate: nat, keys: nat, k: nat, mutating: bool, stream: bool, world: World)
    requires k < keys
    ensures var t := RawFrom(candidate, keys, k, mutating, stream, world);
      && 1 <= |t.attempts| <= keys - k
      && (forall i :: 0 <= i < |t.attempts| ==> t.attempts[i] == Attempt(candidate, k + i, world(candidate, k + i)))
      && (forall i :: 0 <= i < |t.attempts| - 1 ==> AuthRejected(t.attempts[i].reply))
      && (AuthRejected(t.attempts[|t.attempts| - 1].reply) ==> |t.attempts| == keys - k)
      && t.outcome == Classified(t.attempts[|t.attempts| - 1].reply, mutating, stream)
      && t.headerWritten == HeaderWritten(t.attempts[|t.attempts| - 1].reply, stream)
    decreases keys - k
  {
    hide Classified, HeaderWritten;
    if AuthRejected(world(candidate, k)) && k + 1 < keys {
      CredentialLoop(candidate, keys, k + 1, mutating, stream, world);
    }
  }

  // ---------------------------------------------------------------- candidate by candidate

  datatype Candidate =
    | Absent
    | NoBinding
    | LookupFails
    | ProfileUnusable
    | NotDirect
    | Direct(keys: seq<string>, mutating: bool, preparable: bool, available: bool, captured: bool)

  predicate FailoverStatus(status: int) {
    status == 401 || status == 403 || status == 404 || status == 405 || status == 408 || status == 429
  }

  predicate Eligible(o: Outcome) {
    match o
    case ChannelUnavailable => true
    case ExecutorError(status, mayHaveSubmitted) => !mayHaveSubmitted && FailoverStatus(status)
    case _ => false
  }

  /** One direct candidate: a cooling channel or an unbuildable request sends nothing. A captured media response
      is read whole and leaves the client's writer untouched. */
  function TryCandidate(i: nat, c: Candidate, stream: bool, world: World): Try
    requires c.Direct?
  {
    if !c.available then Try([], ChannelUnavailable, false)
    else if !c.preparable then Try([], OtherError, false)
    else
      var n := |NormalizedKeys(c.keys)|;
      var t := RawFrom(i, if n == 0 then 1 else n, 0, c.mutating, stream && !c.captured, world);
      if c.captured then t.(headerWritten := false) else t
  }

  method TryOne(i: nat, c: Candidate, stream: bool, world: World) returns (t: Try)
    requires c.Direct?
    ensures t == TryCandidate(i, c, stream, world)
  {
    if !c.available {
      return Try([], ChannelUnavailable, false);
    }
    if !c.preparable {
      return Try([], OtherError, false);
    }
    t := ExecuteRaw(i, c.keys, c.mutating, stream && !c.captured, world);
    if c.captured {
      t := t.(headerWritten := false);
    }
  }

  datatype Routed = Routed(handled: bool, attempts: seq<Attempt>, outcome: Option<Outcome>)

  /** Whether the loop goes on after a candidate's outcome. */
  predicate GoesOn(t: Try) { t.outcome != Answered && !t.headerWritten && Eligible(t.outcome) }

  /** The candidate loop from candidate i on; `last` is the error of the last bound candidate, if any. */
  function RouteFrom(candidates: seq<Candidate>, i: nat, last: Option<Outcome>, bodyOk: bool, stream: bool, world: World): Routed
    requires i <= |candidates|
    decreases |candidates| - i
  {
    if i == |candidates| then Routed(last.Some?, [], last)
    else
      match candidates[i]
      case Absent | NoBinding | NotDirect => RouteFrom(candidates, i + 1, last, bodyOk, stream, world)
      case LookupFails | ProfileUnusable => Routed(true, [], Some(OtherError))
      case Direct(_, _, _, _, _) =>
        if !bodyOk then Routed(true, [], Some(OtherError))
        else
          var t := TryCandidate(i, candidates[i], stream, world);
          if GoesOn(t) then
            var rest := RouteFrom(candidates, i + 1, Some(t.outcome), bodyOk, stream, world);
            rest.(attempts := t.attempts + rest.attempts)
          else Routed(true, t.attempts, Some(t.outcome))
  }

  method RouteDirect(candidates: seq<Candidate>, bodyOk: bool, stream: bool, world: World) returns (r: Routed)
    ensures r == RouteFrom(candidates, 0, None, bodyOk, stream, world)
  {
    hide TryCandidate, Eligible;
    var attempts: seq<Attempt> := [];
    var lastErr: Option<Outcome> := None;
    for i := 0 to |candidates|
      invariant var all, rest := RouteFrom(candidates, 0, None, bodyOk, stream, world), RouteFrom(candidates, i, lastErr, bodyOk, stream, world);
        all == rest.(attempts := attempts + rest.attempts)
    {
      match candidates[i] {
        case Absent | NoBinding | NotDirect =>
        case LookupFails | ProfileUnusable =>
          return Routed(true, attempts, Some(OtherError));
        case Direct(_, _, _, _, _) =>
          if !bodyOk {
            return Routed(true, attempts, Some(OtherError));
          }
          var t := TryOne(i, candidates[i], stream, world);
          ghost var before := attempts;
          attempts := attempts + t.attempts;
          if t.outcome == Answered || t.headerWritten || !Eligible(t.outcome) {
            return Routed(true, attempts, Some(t.outcome));
          }
          ghost var rest := RouteFrom(candidates, i + 1, Some(t.outcome), bodyOk, stream, world).attempts;
          assert before + (t.attempts + rest) == attempts + rest;
          lastErr := Some(t.outcome);
      }
    }
    return Routed(lastErr.Some?, attempts, lastErr);
  }

  // ---------------------------------------------------------------- nothing is resent after it may have been accepted

  predicate Rejected(reply: Reply) { reply.Status? && FailoverStatus(reply.code) }

  /** Attempts come candidate by candidate and, within one, key by key: no pair is tried twice. */
  predicate Before(a: Attempt, b: Attempt) {
    a.candidate < b.candidate || (a.candidate == b.candidate && a.key < b.key)
  }

  ghost predicate InOrder(attempts: seq<Attempt>) {
    forall i, j :: 0 <= i < j < |attempts| ==> Before(attempts[i], attempts[j])
  }

  ghost predicate AllRejected(attempts: seq<Attempt>) {
    forall i :: 0 <= i < |attempts| ==> Rejected(attempts[i].reply)
  }

  ghost predicate AllButLastRejected(attempts: seq<Attempt>) {
    forall i :: 0 <= i < |attempts| - 1 ==> Rejected(attempts[i].reply)
  }

  lemma {:induction false} TryIsOrderly(i: nat, c: Candidate, stream: bool, world: World)
    requires c.Direct?
    ensures var t := TryCandidate(i, c, stream, world);
      && (forall a :: a in t.attempts ==> a.candidate == i)
      && InOrder(t.attempts) && AllButLastRejected(t.attempts)
      && (GoesOn(t) ==> AllRejected(t.attempts))
  {
    if c.available && c.preparable {
      var n := |NormalizedKeys(c.keys)|;
      hide NormalizedKeys;
      CredentialLoop(i, if n == 0 then 1 else n, 0, c.mutating, stream && !c.captured, world);
      hide RawFrom;
    }
  }

  lemma {:induction false} AppendOrderly(xs: seq<Attempt>, ys: seq<Attempt>, i: nat)
    requires InOrder(xs) && InOrder(ys) && AllRejected(xs) && AllButLastRejected(ys)
    requires (forall a :: a in xs ==> a.candidate == i) && (forall a :: a in ys ==> a.candidate > i)
    ensures InOrder(xs + ys) && AllButLastRejected(xs + ys)
  {
    var all := xs + ys;
    forall p, q | 0 <= p < q < |all| ensures Before(all[p], all[q]) {
      assert p < |xs| ==> xs[p] in xs;
      assert q >= |xs| ==> ys[q - |xs|] in ys;
    }
  }

  /** Across the nested candidate and key loops every attempt but the last was answered with 401, 403, 404, 405,
      408 or 429, so nothing is resent after a transport error, a 2xx, a 3xx or a 5xx. */
  lemma {:induction false} NothingIsResent(
    candidates: seq<Candidate>, i: nat, last: Option<Outcome>, bodyOk: bool, stream: bool, world: World)
    requires i <= |candidates|
    ensures var r := RouteFrom(candidates, i, last, bodyOk, stream, world);
      && AllButLastRejected(r.attempts) && InOrder(r.attempts)
      && (forall a :: a in r.attempts ==> i <= a.candidate < |candidates|)
    decreases |candidates| - i
  {
    hide TryCandidate, GoesOn, InOrder, AllRejected, AllButLastRejected;
    NoneIsOrderly();
    if i == |candidates| {
    } else {
      match candidates[i]
      case Absent | NoBinding | NotDirect => NothingIsResent(candidates, i + 1, last, bodyOk, stream, world);
      case LookupFails | ProfileUnusable =>
      case Direct(_, _, _, _, _) =>
        var t := TryCandidate(i, candidates[i], stream, world);
        TryIsOrderly(i, candidates[i], stream, world);
        if bodyOk && GoesOn(t) {
          NothingIsResent(candidates, i + 1, Some(t.outcome), bodyOk, stream, world);
          AppendOrderly(t.attempts, RouteFrom(candidates, i + 1, Some(t.outcome), bodyOk, stream, world).attempts, i);
        }
    }
  }

  lemma {:induction false} NoneIsOrderly()
    ensures InOrder([]) && AllButLastRejected([])
  {
  }

  /** A request that changes provider state is offered to another candidate exactly when the last reply was a
      readable refusal of one of those six kinds; otherwise the loop ends there. */
  lemma {:induction false} MutatingGoesOnExactlyAfterRefusal(i: nat, c: Candidate, stream: bool, world: World)
    requires c.Direct? && c.available && c.preparable && c.mutating
    ensures var t := TryCandidate(i, c, stream, world);
      t.attempts != [] &&
      (GoesOn(t) <==> var reply := t.attempts[|t.attempts| - 1].reply;
                      Rejected(reply) && (reply.body == Readable || reply.body == WriteFails))
  {
    var n := |NormalizedKeys(c.keys)|;
    hide NormalizedKeys;
    CredentialLoop(i, if n == 0 then 1 else n, 0, c.mutating, stream && !c.captured, world);
    hide RawFrom;
  }

  // ---------------------------------------------------------------- the adapter's key rotation

  /** Keys from the counter's position on, wrapping around. */
  function Rotation(keys: seq<string>, counter: nat): seq<string>
    requires keys != []
  {
    seq(|keys|, i requires 0 <= i < |keys| => keys[(counter % |keys| + i) % |keys|])
  }

  /** The counters, per channel; a channel without one starts at 0. */
  type Counters = map<nat, nat>

  function CountOf(counters: Counters, channel: nat): nat { if channel in counters then counters[channel] else 0 }

  /** The keys in the order one request tries them, and the counters afterwards. */
  function OrderedStep(counters: Counters, channel: nat, keys: seq<string>): (Counters, seq<string>) {
    if |keys| == 0 then (counters, [""])
    else if |keys| == 1 then (counters, keys)
    else (counters[channel := CountOf(counters, channel) + 1], Rotation(keys, CountOf(counters, channel)))
  }

  lemma {:induction false} RotationAt(keys: seq<string>, counter: nat, i: nat)
    requires i < |keys|
    ensures |Rotation(keys, counter)| == |keys| && Rotation(keys, counter)[i] == keys[(counter % |keys| + i) % |keys|]
  {
  }

  class KeyRotation {
    var counters: Counters

    constructor ()
      ensures counters == map[]
    {
      counters := map[];
    }

    method OrderedKeys(channel: nat, keys: seq<string>) returns (ordered: seq<string>)
      modifies this
      ensures (counters, ordered) == OrderedStep(old(counters), channel, keys)
    {
      if |keys| == 0 {
        return [""];
      }
      if |keys| == 1 {
        return keys;
      }
      ghost var count := CountOf(counters, channel);
      if channel !in counters {
        counters := counters[channel := 0];
      }
      var start := counters[channel] % |keys|;
      counters := counters[channel := counters[channel] + 1];
      assert counters == old(counters)[channel := count + 1];
      hide Rotation, CountOf, OrderedStep;
      SeveralKeysRotate(old(counters), channel, keys);
      ordered := [];
      for i := 0 to |keys|
        invariant ordered == Rotation(keys, count)[..i] && counters == old(counters)[channel := count + 1]
      {
        RotationAt(keys, count, i);
        ordered := ordered + [keys[(start + i) % |keys|]];
      }
      assert ordered == Rotation(keys, count);
    }
  }

  lemma {:induction false} SeveralKeysRotate(counters: Counters, channel: nat, keys: seq<string>)
    requires |keys| > 1
    ensures var count := CountOf(counters, channel);
      && OrderedStep(counters, channel, keys) == (counters[channel := count + 1], Rotation(keys, count))
      && |Rotation(keys, count)| == |keys|
  {
  }

  lemma {:induction false} ModStep(c: nat, n: nat)
    requires n > 0
    ensures (c + 1) % n == if c % n + 1 == n then 0 else c % n + 1
  {
    var q, r := c / n, c % n;
    assert c == q * n + r;
    if r + 1 == n {
      assert c + 1 == (q + 1) * n;
      ModUnique(c + 1, q + 1, 0, n);
    } else {
      ModUnique(c + 1, q, r + 1, n);
    }
  }

  lemma {:induction false} ModUnique(c: nat, q: nat, r: nat, n: nat)
    requires n > 0 && r < n && c == q * n + r
    ensures c % n == r
  {
    var q2, r2 := c / n, c % n;
    assert c == q2 * n + r2;
    assert (q - q2) * n == r2 - r;
    if q > q2 {
      assert (q - q2) * n >= n by { MulGrows(q - q2, n); }
    } else if q < q2 {
      assert (q2 - q) * n >= n by { MulGrows(q2 - q, n); }
    }
  }

  lemma {:induction false} MulGrows(a: nat, n: nat)
    requires a >= 1
    ensures a * n >= n
  {
  }

  /** Where the call `i` calls after one that starts at key `start` begins. */
  function StartAfter(start: nat, i: nat, n: nat): nat
    requires start < n && i < n
  {
    if start + i < n then start + i else start + i - n
  }

  lemma {:induction false} StartsAdvance(c: nat, i: nat, n: nat)
    requires n > 0 && i < n
    ensures (c + i) % n == StartAfter(c % n, i, n)
  {
    if i > 0 {
      StartsAdvance(c, i - 1, n);
      ModStep(c + (i - 1), n);
      assert c + (i - 1) + 1 == c + i;
    } else {
      assert c + i == c;
    }
  }

  // ---------------------------------------------------------------- a history of requests

  datatype Request = Request(channel: nat, keys: seq<string>)

  function CountersAfter(requests: seq<Request>): Counters {
    if requests == [] then map[]
    else
      var last := requests[|requests| - 1];
      OrderedStep(CountersAfter(requests[..|requests| - 1]), last.channel, last.keys).0
  }

  /** The order the request at position q gets. */
  function OrderAt(requests: seq<Request>, q: nat): seq<string>
    requires q < |requests|
  {
    OrderedStep(CountersAfter(requests[..q]), requests[q].channel, requests[q].keys).1
  }

  predicate Turns(r: Request, channel: nat) { r.channel == channel && |r.keys| > 1 }

  /** How many of the requests turn the channel's rotation. */
  function TurnsOf(requests: seq<Request>, channel: nat): nat {
    if requests == [] then 0
    else
      TurnsOf(requests[..|requests| - 1], channel) + if Turns(requests[|requests| - 1], channel) then 1 else 0
  }

  /** A channel's counter counts its own requests, whatever other channels do in between. */
  lemma {:induction false} CounterCountsTurns(requests: seq<Request>, channel: nat)
    ensures CountOf(CountersAfter(requests), channel) == TurnsOf(requests, channel)
  {
    if requests == [] {
    } else {
      CounterCountsTurns(requests[..|requests| - 1], channel);
      hide Rotation;
    }
  }

  lemma {:induction false} TurnsStep(requests: seq<Request>, channel: nat, q: nat)
    requires q < |requests|
    ensures TurnsOf(requests[..q + 1], channel) ==
            TurnsOf(requests[..q], channel) + if Turns(requests[q], channel) then 1 else 0
  {
    assert requests[..q + 1][..q] == requests[..q];
  }

  lemma {:induction false} TurnsGrow(requests: seq<Request>, channel: nat, a: nat, b: nat)
    requires a <= b <= |requests|
    ensures TurnsOf(requests[..a], channel) <= TurnsOf(requests[..b], channel)
  {
    if a == b {
    } else {
      TurnsGrow(requests, channel, a, b - 1);
      TurnsStep(requests, channel, b - 1);
    }
  }

  /** Every count of turns between two positions is reached by a request that turns the rotation. */
  lemma {:induction false} TurnAt(requests: seq<Request>, channel: nat, a: nat, b: nat, count: nat) returns (q: nat)
    requires a <= b <= |requests| && TurnsOf(requests[..a], channel) <= count < TurnsOf(requests[..b], channel)
    ensures a <= q < b && Turns(requests[q], channel) && TurnsOf(requests[..q], channel) == count
  {
    if a == b {
      assert false;
    } else {
      TurnsStep(requests, channel, b - 1);
      if count < TurnsOf(requests[..b - 1], channel) {
        q := TurnAt(requests, channel, a, b - 1, count);
      } else {
        q := b - 1;
      }
    }
  }

  /** Positions a to b hold exactly as many requests of the channel as it has keys, all with these keys; requests of
      other channels may lie in between. */
  ghost predicate FullTurn(requests: seq<Request>, channel: nat, keys: seq<string>, a: nat, b: nat) {
    && a <= b <= |requests| && |keys| > 1
    && TurnsOf(requests[..b], channel) == TurnsOf(requests[..a], channel) + |keys|
    && forall q :: a <= q < b && Turns(requests[q], channel) ==> requests[q].keys == keys
  }

  /** The request at q is the channel's and tries key k first. */
  predicate StartsWith(requests: seq<Request>, channel: nat, q: nat, k: nat) {
    q < |requests| && Turns(requests[q], channel) && k < |requests[q].keys|
    && TurnsOf(requests[..q], channel) % |requests[q].keys| == k
  }

  /** That is what it means for its order: the keys from k on, then the ones before. */
  lemma {:induction false} StartsWithMeans(requests: seq<Request>, channel: nat, q: nat, k: nat)
    requires StartsWith(requests, channel, q, k)
    ensures OrderAt(requests, q) == requests[q].keys[k..] + requests[q].keys[..k]
  {
    CounterCountsTurns(requests[..q], channel);
    hide Rotation;
    RotationIsARotation(requests[q].keys, TurnsOf(requests[..q], channel));
  }

  /** Any n successive requests of a channel with n keys try each key first exactly once, in whatever way requests of
      other channels are mixed in. */
  lemma {:induction false} EveryKeyStartsOnce(requests: seq<Request>, channel: nat, keys: seq<string>, a: nat, b: nat, k: nat)
    requires FullTurn(requests, channel, keys, a, b) && k < |keys|
    ensures exists q :: a <= q < b && StartsWith(requests, channel, q, k)
    ensures forall p, q | a <= p < b && a <= q < b ::
      StartsWith(requests, channel, p, k) && StartsWith(requests, channel, q, k) ==> p == q
  {
    var n, first := |keys|, TurnsOf(requests[..a], channel);
    var start := first % n;
    var i := if k >= start then k - start else k + n - start;
    StartsAdvance(first, i, n);
    var q0 := TurnAt(requests, channel, a, b, first + i);
    assert StartsWith(requests, channel, q0, k);
    forall q | a <= q < b && StartsWith(requests, channel, q, k) ensures q == q0 {
      TurnIsUnique(requests, channel, a, b, q, n, i);
      SameTurn(requests, channel, q, q0);
    }
  }

  lemma {:induction false} TurnIsUnique(requests: seq<Request>, channel: nat, a: nat, b: nat, q: nat, n: nat, i: nat)
    requires a <= q < b <= |requests| && Turns(requests[q], channel) && i < n
    requires TurnsOf(requests[..b], channel) == TurnsOf(requests[..a], channel) + n
    requires TurnsOf(requests[..q], channel) % n == (TurnsOf(requests[..a], channel) + i) % n
    ensures TurnsOf(requests[..q], channel) == TurnsOf(requests[..a], channel) + i
  {
    TurnsGrow(requests, channel, a, q);
    TurnsStep(requests, channel, q);
    TurnsGrow(requests, channel, q + 1, b);
    var first := TurnsOf(requests[..a], channel);
    var j := TurnsOf(requests[..q], channel) - first;
    StartsAdvance(first, i, n);
    StartsAdvance(first, j, n);
  }

  lemma {:induction false} SameTurn(requests: seq<Request>, channel: nat, p: nat, q: nat)
    requires p < |requests| && q < |requests| && Turns(requests[p], channel) && Turns(requests[q], channel)
    requires TurnsOf(requests[..p], channel) == TurnsOf(requests[..q], channel)
    ensures p == q
  {
    TurnsStep(requests, channel, p);
    TurnsStep(requests, channel, q);
    if p < q { TurnsGrow(requests, channel, p + 1, q); }
    if q < p { TurnsGrow(requests, channel, q + 1, p); }
  }

  /** A rotation is the keys from the counter's position on followed by the ones before it, so it tries every
      configured key exactly as often as it is configured. */
  lemma {:induction false} RotationIsARotation(keys: seq<string>, counter: nat)
    requires keys != []
    ensures var k := counter % |keys|; Rotation(keys, counter) == keys[k..] + keys[..k]
    ensures multiset(Rotation(keys, counter)) == multiset(keys)
  {
    var k, n := counter % |keys|, |keys|;
    ModUnique(k, 0, k, n);
    forall i | 0 <= i < n ensures Rotation(keys, counter)[i] == (keys[k..] + keys[..k])[i] {
      StartsAdvance(k, i, n);
    }
    assert keys == keys[..k] + keys[k..];
  }

  datatype AdapterReply = Cancelled | NoConnection | Code(code: int, bodyReadable: bool)

  datatype AdapterResult = Handled | Failed

  datatype Rotated = Rotated(replies: seq<AdapterReply>, result: AdapterResult)

  predicate Rotates(code: int) { code == 401 || code == 403 || code == 429 }

  /** The rotation loop from key k of n on; `world` answers each key. */
  function RotateFrom(n: nat, k: nat, idempotent: bool, world: nat -> AdapterReply): Rotated
    requires k <= n
    decreases n - k
  {
    if k == n then Rotated([], Failed)
    else
      var reply := world(k);
      var goesOn := match reply
        case Cancelled => false
        case NoConnection => idempotent
        case Code(code, readable) => code < 500 && Rotates(code) && readable && k + 1 < n;
      if goesOn then
        var rest := RotateFrom(n, k + 1, idempotent, world);
        rest.(replies := [reply] + rest.replies)
      else Rotated([reply], if reply.Code? && reply.code < 500 && !Rotates(reply.code) then Handled else Failed)
  }

  method ExecuteWithKeyRotation(ordered: seq<string>, idempotent: bool, world: nat -> AdapterReply) returns (r: Rotated)
    ensures r == RotateFrom(|ordered|, 0, idempotent, world)
  {
    var replies: seq<AdapterReply> := [];
    var n := |ordered|;
    for k := 0 to n
      invariant var all, rest := RotateFrom(n, 0, idempotent, world), RotateFrom(n, k, idempotent, world);
        all == rest.(replies := replies + rest.replies)
    {
      var reply := world(k);
      ghost var before := replies;
      replies := replies + [reply];
      ghost var rest := RotateFrom(n, k + 1, idempotent, world).replies;
      assert before + ([reply] + rest) == replies + rest;
      match reply {
        case Cancelled => return Rotated(replies, Failed);
        case NoConnection =>
          if !idempotent {
            return Rotated(replies, Failed);
          }
        case Code(code, readable) =>
          if code >= 500 {
            return Rotated(replies, Failed);
          }
          if code == 429 || code == 401 || code == 403 {
            if !readable || k == n - 1 {
              return Rotated(replies, Failed);
            }
          } else {
            return Rotated(replies, Handled);
          }
      }
    }
    return Rotated(replies, Failed);
  }

  /** A POST goes to the next key only after 401, 403 or 429; an idempotent request also after a failed connection.
      Keys are tried from the front without gaps, and a handled response is the last thing received. */
  lemma {:induction false} RotationIsSafe(n: nat, k: nat, idempotent: bool, world: nat -> AdapterReply)
    requires k <= n
    ensures var r := RotateFrom(n, k, idempotent, world);
      && |r.replies| <= n - k && (forall i :: 0 <= i < |r.replies| ==> r.replies[i] == world(k + i))
      && (forall i :: 0 <= i < |r.replies| - 1 ==>
            (r.replies[i].Code? && Rotates(r.replies[i].code)) || (idempotent && r.replies[i].NoConnection?))
      && (k < n ==> r.replies != [])
      && (r.result.Handled? <==> r.replies != [] && var last := r.replies[|r.replies| - 1];
            last.Code? && last.code < 500 && !Rotates(last.code))
    decreases n - k
  {
    if k == n {
    } else {
      RotationIsSafe(n, k + 1, idempotent, world);
    }
  }
}
