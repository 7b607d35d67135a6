/** How the loops of `Failover` come to their end: what is trimmed, when a request counts as answered or as possibly
    submitted, who is tried next, and that nobody stops early. */
module FailoverEffects {
  import opened Wrappers
  import opened Failover

  /** A space or the end of a cell or a line. */
  predicate White(c: char) { c in {' ', '\t', '\n', '\r'} }

  /** The string is blank outside of [lo, hi). */
  ghost predicate BlankOutside(s: string, lo: nat, hi: nat) {
    lo <= hi <= |s| && (forall k :: 0 <= k < lo ==> White(s[k])) && (forall k :: hi <= k < |s| ==> White(s[k]))
  }

  lemma {:induction false} BlanksAreWhite(c: char)
    ensures Blank(c) <==> White(c)
  {
  }

  lemma {:induction false} BlankBefore(s: string, lo: nat, hi: nat)
    requires s != "" && White(s[0]) && BlankOutside(s[1..], lo, hi)
    ensures BlankOutside(s, lo + 1, hi + 1) && s[lo + 1..hi + 1] == s[1..][lo..hi]
  {
    forall k | 0 <= k < lo + 1 ensures White(s[k]) {
      if k > 0 { assert s[k] == s[1..][k - 1]; }
    }
    forall k | hi + 1 <= k < |s| ensures White(s[k]) { assert s[k] == s[1..][k - 1]; }
    hide *;
    forall k | 0 <= k < hi - lo ensures s[lo + 1..hi + 1][k] == s[1..][lo..hi][k] {
      assert s[lo + 1..hi + 1][k] == s[lo + 1 + k] == s[1..][lo + k];
    }
  }

  lemma {:induction false} BlankAfter(s: string, lo: nat, hi: nat)
    requires s != "" && White(s[|s| - 1]) && BlankOutside(s[..|s| - 1], lo, hi)
    ensures BlankOutside(s, lo, hi) && s[lo..hi] == s[..|s| - 1][lo..hi]
  {
    var front := s[..|s| - 1];
    forall k | 0 <= k < lo ensures White(s[k]) { assert s[k] == front[k]; }
    forall k | hi <= k < |s| ensures White(s[k]) {
      if k < |front| { assert s[k] == front[k]; }
    }
    hide *;
    forall k | 0 <= k < hi - lo ensures s[lo..hi][k] == front[lo..hi][k] {
      assert s[lo..hi][k] == s[lo + k] == front[lo + k];
    }
  }

  /** A key loses the blanks around it and nothing else. */
  lemma {:induction false} TrimStripsBlanks(s: string)
    ensures Trim(s) == "" || (!White(Trim(s)[0]) && !White(Trim(s)[|Trim(s)| - 1]))
    ensures exists lo: nat, hi: nat :: lo <= hi <= |s| && BlankOutside(s, lo, hi) && Trim(s) == s[lo..hi]
    decreases |s|
  {
    if s != "" {
      BlanksAreWhite(s[0]);
      BlanksAreWhite(s[|s| - 1]);
    }
    hide Blank, White, BlankOutside;
    if s != "" && Blank(s[0]) {
      TrimStripsBlanks(s[1..]);
      var lo: nat, hi: nat :| lo <= hi <= |s| - 1 && BlankOutside(s[1..], lo, hi) && Trim(s[1..]) == s[1..][lo..hi];
      BlankBefore(s, lo, hi);
    } else if s != "" && Blank(s[|s| - 1]) {
      TrimStripsBlanks(s[..|s| - 1]);
      var lo: nat, hi: nat :|
        lo <= hi <= |s| - 1 && BlankOutside(s[..|s| - 1], lo, hi) && Trim(s[..|s| - 1]) == s[..|s| - 1][lo..hi];
      BlankAfter(s, lo, hi);
    } else {
      AllOfIt(s);
      assert s == s[0..|s|];
    }
  }

  lemma {:induction false} AllOfIt(s: string)
    ensures BlankOutside(s, 0, |s|)
  {
  }

  // ---------------------------------------------------------------- what a reply means

  predicate Succeeded(reply: Reply) { reply.Status? && 200 <= reply.code <= 299 && reply.body.Readable? }

  /** A refusal below 500 that was read to its end. */
  predicate ReadRefusal(reply: Reply) {
    reply.Status? && !(200 <= reply.code <= 299) && reply.code < 500 && (reply.body.Readable? || reply.body.WriteFails?)
  }

  /** The client has been sent the start of the answer already. */
  predicate Delivering(reply: Reply, stream: bool) {
    reply.Status? && 200 <= reply.code <= 299 && !reply.body.Readable? && (stream || reply.body.WriteFails?)
  }

  /** A reply answers the request exactly if it is a success read to its end. Any other one to a request that changes
      something leaves it in doubt whether it was submitted, except a refusal that was read and an answer that was already
      being delivered; the status reported is the reply's own. */
  lemma {:induction false} RepliesAreClassified(reply: Reply, mutating: bool, stream: bool)
    ensures Classified(reply, mutating, stream) == Answered <==> Succeeded(reply)
    ensures var status, doubtful :=
        if reply.Status? then reply.code else 0, mutating && !ReadRefusal(reply) && !Delivering(reply, stream);
      !Succeeded(reply) ==> Classified(reply, mutating, stream) == ExecutorError(status, doubtful)
  {
  }

  /** One of the six refusals after which the request cannot have been submitted. */
  predicate Refused(reply: Reply) { reply.Status? && reply.code in {401, 403, 404, 405, 408, 429} }

  /** A candidate's key was not accepted. */
  predicate Unauthorized(reply: Reply) { reply.Status? && reply.code in {401, 403} }

  /** The keys of a candidate are tried exactly until one is accepted. */
  lemma {:induction false} TriesUntilAuthorized(
    candidate: nat, keys: nat, k: nat, j: nat, mutating: bool, stream: bool, world: World)
    requires k <= j < keys
    ensures j - k < |RawFrom(candidate, keys, k, mutating, stream, world).attempts| <==>
      forall i: nat :: k <= i < j ==> Unauthorized(world(candidate, i))
    decreases keys - k
  {
    hide Classified, HeaderWritten;
    assert Unauthorized(world(candidate, k)) <==> AuthRejected(world(candidate, k));
    if k < j { TriesUntilAuthorized(candidate, keys, k + 1, j, mutating, stream, world); }
    hide AuthRejected, Unauthorized;
  }

  /** A candidate has answered the client, as far as its header, exactly when its last reply was a success that was streamed
      or read, unless the answer is captured for the gateway itself. */
  lemma {:induction false} HeaderReachesTheClientExactlyWhen(i: nat, c: Candidate, stream: bool, world: World)
    requires c.Direct? && c.available && c.preparable
    ensures var t := TryCandidate(i, c, stream, world);
      && t.attempts != []
      && (var reply := t.attempts[|t.attempts| - 1].reply;
          t.headerWritten <==> !c.captured && reply.Status? && 200 <= reply.code <= 299
                               && (stream || (reply.body != Broken && reply.body != TooLarge)))
  {
    var n := |NormalizedKeys(c.keys)|;
    hide NormalizedKeys;
    CredentialLoop(i, if n == 0 then 1 else n, 0, c.mutating, stream && !c.captured, world);
    hide RawFrom;
  }

  /** A request that changes nothing goes to the next candidate exactly after one of the six refusals, whatever its body. */
  lemma {:induction false} HarmlessGoesOnExactlyAfterRefusal(i: nat, c: Candidate, stream: bool, world: World)
    requires c.Direct? && c.available && c.preparable && !c.mutating
    ensures var t := TryCandidate(i, c, stream, world);
      t.attempts != [] && (GoesOn(t) <==> Refused(t.attempts[|t.attempts| - 1].reply))
  {
    var n := |NormalizedKeys(c.keys)|;
    hide NormalizedKeys;
    CredentialLoop(i, if n == 0 then 1 else n, 0, c.mutating, stream && !c.captured, world);
    hide RawFrom;
  }

  // ---------------------------------------------------------------- who is tried

  /** The candidate cannot take the request and says so before anything is sent. */
  predicate PassedOver(c: Candidate) { c.Absent? || c.NoBinding? || c.NotDirect? || (c.Direct? && !c.available) }

  /** The candidate can be sent the request. */
  predicate Usable(c: Candidate) { c.Direct? && c.available && c.preparable }

  /** The first candidate that can be sent the request is, and if it succeeds at once that is the only attempt. */
  lemma {:induction false} FirstUsableAnswers(
    candidates: seq<Candidate>, i: nat, k: nat, last: Option<Outcome>, stream: bool, world: World)
    requires i <= k < |candidates| && Usable(candidates[k]) && Succeeded(world(k, 0))
    requires forall j :: i <= j < k ==> PassedOver(candidates[j])
    ensures RouteFrom(candidates, i, last, true, stream, world) == Routed(true, [Attempt(k, 0, world(k, 0))], Some(Answered))
    decreases k - i
  {
    if i == k {
      hide NormalizedKeys;
    } else {
      assert PassedOver(candidates[i]);
      hide PassedOver;
      FirstUsableAnswers(candidates, i + 1, k, if candidates[i].Direct? then Some(ChannelUnavailable) else last, stream, world);
    }
  }

  /** The candidate stops the route without being sent anything: its binding or profile cannot be used, or the request
      cannot be built for it. */
  predicate Stops(c: Candidate) { c.LookupFails? || c.ProfileUnusable? || (c.Direct? && c.available && !c.preparable) }

  /** A candidate that stops the route ends it with an error of its own, and nobody behind it is tried; so does any direct
      candidate when the request's body could not be read. */
  lemma {:induction false} StoppedWithoutSending(
    candidates: seq<Candidate>, i: nat, k: nat, last: Option<Outcome>, bodyOk: bool, stream: bool, world: World)
    requires i <= k < |candidates| && (Stops(candidates[k]) || (!bodyOk && candidates[k].Direct?))
    requires forall j :: i <= j < k ==> PassedOver(candidates[j]) && (bodyOk || !candidates[j].Direct?)
    ensures RouteFrom(candidates, i, last, bodyOk, stream, world) == Routed(true, [], Some(OtherError))
    decreases k - i
  {
    if i == k {
      hide NormalizedKeys;
    } else {
      assert PassedOver(candidates[i]);
      hide PassedOver, Stops;
      var next := if candidates[i].Direct? then Some(ChannelUnavailable) else last;
      StoppedWithoutSending(candidates, i + 1, k, next, bodyOk, stream, world);
    }
  }

  /** When every candidate is passed over nothing is sent; the route is taken exactly if one of them was bound. */
  lemma {:induction false} NobodyUsable(candidates: seq<Candidate>, i: nat, last: Option<Outcome>, stream: bool, world: World)
    requires i <= |candidates| && forall j :: i <= j < |candidates| ==> PassedOver(candidates[j])
    ensures var r := RouteFrom(candidates, i, last, true, stream, world);
      && r.attempts == [] && (r.handled <==> last.Some? || exists j :: i <= j < |candidates| && candidates[j].Direct?)
      && (r.outcome == last || r.outcome == Some(ChannelUnavailable))
    decreases |candidates| - i
  {
    if i == |candidates| {
    } else {
      assert PassedOver(candidates[i]);
      hide PassedOver;
      NobodyUsable(candidates, i + 1, if candidates[i].Direct? then Some(ChannelUnavailable) else last, stream, world);
    }
  }

  /** After a candidate that lets go, the rest is tried as if it had come first, and after any other nobody is. */
  lemma {:induction false} LettingGoHandsOn(candidates: seq<Candidate>, i: nat, last: Option<Outcome>, stream: bool, world: World)
    requires i < |candidates| && Usable(candidates[i])
    ensures var r, t := RouteFrom(candidates, i, last, true, stream, world), TryCandidate(i, candidates[i], stream, world);
      var rest := RouteFrom(candidates, i + 1, Some(t.outcome), true, stream, world);
      if GoesOn(t) then r.attempts == t.attempts + rest.attempts && r.outcome == rest.outcome && r.handled == rest.handled
      else r.attempts == t.attempts && r.outcome == Some(t.outcome) && r.handled
  {
    hide TryCandidate, GoesOn;
  }

  predicate LastSucceeded(attempts: seq<Attempt>) { attempts != [] && Succeeded(attempts[|attempts| - 1].reply) }

  lemma {:induction false} LastOfBoth(a: seq<Attempt>, b: seq<Attempt>)
    requires !LastSucceeded(a)
    ensures LastSucceeded(a + b) <==> LastSucceeded(b)
  {
    if b == [] { assert a + b == a; }
  }

  lemma {:induction false} TryAnswers(i: nat, c: Candidate, stream: bool, world: World)
    requires c.Direct?
    ensures var t := TryCandidate(i, c, stream, world);
      (t.outcome == Answered <==> LastSucceeded(t.attempts)) && (GoesOn(t) ==> !LastSucceeded(t.attempts))
  {
    if c.available && c.preparable {
      var n := |NormalizedKeys(c.keys)|;
      hide NormalizedKeys;
      CredentialLoop(i, if n == 0 then 1 else n, 0, c.mutating, stream && !c.captured, world);
      var t := TryCandidate(i, c, stream, world);
      RepliesAreClassified(t.attempts[|t.attempts| - 1].reply, c.mutating, stream && !c.captured);
      hide RawFrom, Classified;
    }
  }

  /** A routed request is answered exactly if the last reply received is a success read to its end. */
  lemma {:induction false} AnsweredExactlyWhenSucceeded(
    candidates: seq<Candidate>, i: nat, last: Option<Outcome>, bodyOk: bool, stream: bool, world: World)
    requires i <= |candidates| && last != Some(Answered)
    ensures var r := RouteFrom(candidates, i, last, bodyOk, stream, world);
      r.outcome == Some(Answered) <==> LastSucceeded(r.attempts)
    decreases |candidates| - i
  {
    assert !LastSucceeded([]);
    hide TryCandidate, LastSucceeded, GoesOn;
    if i == |candidates| {
    } else {
      match candidates[i]
      case Absent | NoBinding | NotDirect => AnsweredExactlyWhenSucceeded(candidates, i + 1, last, bodyOk, stream, world);
      case LookupFails | ProfileUnusable =>
      case Direct(_, _, _, _, _) =>
        var t := TryCandidate(i, candidates[i], stream, world);
        TryAnswers(i, candidates[i], stream, world);
        if bodyOk && GoesOn(t) {
          AnsweredExactlyWhenSucceeded(candidates, i + 1, Some(t.outcome), bodyOk, stream, world);
          LastOfBoth(t.attempts, RouteFrom(candidates, i + 1, Some(t.outcome), bodyOk, stream, world).attempts);
        }
    }
  }

  /** No key of a candidate is tried twice, and all attempts but the last met one of the six refusals. */
  lemma {:induction false} NoKeyIsTriedTwice(
    candidates: seq<Candidate>, i: nat, last: Option<Outcome>, bodyOk: bool, stream: bool, world: World, p: nat, q: nat)
    requires i <= |candidates| && p < q < |RouteFrom(candidates, i, last, bodyOk, stream, world).attempts|
    ensures var attempts := RouteFrom(candidates, i, last, bodyOk, stream, world).attempts;
      && (attempts[p].candidate != attempts[q].candidate || attempts[p].key != attempts[q].key)
      && Refused(attempts[p].reply)
  {
    NothingIsResent(candidates, i, last, bodyOk, stream, world);
    hide RouteFrom;
    var attempts := RouteFrom(candidates, i, last, bodyOk, stream, world).attempts;
    assert Before(attempts[p], attempts[q]) && Rejected(attempts[p].reply);
  }

  // ---------------------------------------------------------------- the adapter's rotation

  /** What the adapter takes to the next key. */
  predicate TakenOn(reply: AdapterReply, idempotent: bool) {
    (reply.NoConnection? && idempotent) || (reply.Code? && reply.bodyReadable && reply.code in {401, 403, 429})
  }

  /** The rotation does not stop before the last key while the replies are ones it is meant to go on after. */
  lemma {:induction false} RotationDoesNotStopEarly(n: nat, k: nat, idempotent: bool, world: nat -> AdapterReply)
    requires k < n
    ensures var r := RotateFrom(n, k, idempotent, world);
      r.replies != [] && (|r.replies| < n - k ==> !TakenOn(r.replies[|r.replies| - 1], idempotent))
    decreases n - k
  {
    if k + 1 < n { RotationDoesNotStopEarly(n, k + 1, idempotent, world); }
  }
}
