/** Waiting for an asynchronous provider (protocol/async.go): 64-bit saturating delays, the Retry-After header
    (section 10.2.3 of RFC 9110) and the bounded poll loop. Every operation on `Int64` below is checked not to
    leave the 64-bit range. */
module PollSchedule {
  import opened Wrappers

  const MAX: int := 0x7FFF_FFFF_FFFF_FFFF

  newtype Int64 = x: int | -0x8000_0000_0000_0000 <= x <= 0x7FFF_FFFF_FFFF_FFFF

  const MAX64: Int64 := 0x7FFF_FFFF_FFFF_FFFF
  const NANOS_PER_MS: Int64 := 1_000_000
  const NANOS_PER_SECOND: Int64 := 1_000_000_000

  function Clamp(x: int): Int64 {
    if x > MAX then MAX64 else if x < -MAX - 1 then -0x8000_0000_0000_0000 else x as Int64
  }

  function NonNegative(x: int): int { if x < 0 then 0 else x }

  // ---------------------------------------------------------------- saturating arithmetic

  lemma {:induction false} QuotientBounds(value: int, multiplier: int)
    requires value > 0 && multiplier > 0
    ensures value > MAX / multiplier <==> value * multiplier > MAX
  {
    var q, r := MAX / multiplier, MAX % multiplier;
    assert MAX == q * multiplier + r && 0 <= r < multiplier;
    if value > q {
      MulMonotone(q + 1, value, multiplier);
      assert (q + 1) * multiplier == q * multiplier + multiplier;
    } else {
      MulMonotone(value, q, multiplier);
    }
  }

  lemma {:induction false} MulMonotone(a: int, b: int, c: int)
    requires a <= b && c >= 0
    ensures a * c <= b * c
  {
  }

  /** The product clamped to the range; nothing for operands that are not positive. */
  function SaturatingMultiply(value: Int64, multiplier: Int64): (r: Int64)
    ensures r == if value <= 0 || multiplier <= 0 then 0 else Clamp(value as int * multiplier as int)
  {
    if value <= 0 || multiplier <= 0 then 0
    else
      QuotientBounds(value as int, multiplier as int);
      MulMonotone(0, value as int, multiplier as int);
      if value > MAX64 / multiplier then MAX64 else value * multiplier
  }

  function Pow2(n: nat): nat { if n == 0 then 1 else 2 * Pow2(n - 1) }

  function Exponent(e: int): nat { if e <= 0 then 0 else e }

  lemma {:induction false} DoublingGrows(value: int, i: nat, n: nat)
    requires value > 0 && i <= n
    ensures 0 < value * Pow2(i) <= value * Pow2(n)
    decreases n - i
  {
    Pow2IsPositive(i);
    MulPositive(value, Pow2(i));
    if i == n {
    } else {
      DoublingGrows(value, i + 1, n);
      assert value * Pow2(i + 1) == 2 * (value * Pow2(i));
    }
  }

  lemma {:induction false} Pow2IsPositive(n: nat)
    ensures Pow2(n) > 0
  {
    if n == 0 {
    } else {
      Pow2IsPositive(n - 1);
    }
  }

  lemma {:induction false} MulPositive(a: int, b: int)
    requires a > 0 && b > 0
    ensures a * b > 0
  {
  }

  method SaturatingPowerOfTwo(value: Int64, exponent: int) returns (r: Int64)
    ensures r == if value <= 0 then 0 else Clamp(value as int * Pow2(Exponent(exponent)))
  {
    if value <= 0 {
      return 0;
    }
    if exponent <= 0 {
      return value;
    }
    r := value;
    for i := 0 to exponent
      invariant r > 0 && r as int == value as int * Pow2(i)
    {
      DoublingGrows(value as int, i + 1, exponent);
      assert value as int * Pow2(i + 1) == 2 * (value as int * Pow2(i));
      if r > MAX64 / 2 {
        return MAX64;
      }
      r := r * 2;
    }
  }

  function SaturatingAdd(a: Int64, b: Int64): (r: Int64)
    ensures r == Clamp(a as int + b as int)
  {
    if b > 0 && a > MAX64 - b then MAX64
    else if b < 0 && a < -0x8000_0000_0000_0000 - b then -0x8000_0000_0000_0000
    else a + b
  }

  const MAX_MS: Int64 := MAX64 / NANOS_PER_MS

  function MsToDuration(ms: Int64): (d: Int64)
    ensures d == if ms >= MAX_MS then MAX64 else (NonNegative(ms as int) * 1_000_000) as Int64
    ensures d >= 0
  {
    if ms <= 0 then 0 else if ms >= MAX_MS then MAX64 else ms * NANOS_PER_MS
  }

  function DurationToMs(d: Int64): (ms: Int64)
    ensures ms as int == NonNegative(d as int) / 1_000_000 && 0 <= ms <= MAX_MS
  {
    if d <= 0 then 0 else d / NANOS_PER_MS
  }

  /** Milliseconds survive the trip through nanoseconds, up to the largest representable duration. */
  lemma {:induction false} MsRoundTrip(ms: Int64)
    ensures DurationToMs(MsToDuration(ms)) as int == if ms > MAX_MS then MAX_MS as int else NonNegative(ms as int)
  {
  }

  // ---------------------------------------------------------------- Retry-After

  /** The header as parsed: delay-seconds, an HTTP date, or neither. Dates and the clock count nanoseconds. */
  datatype RetryAfter = Missing | Seconds(count: nat) | At(when: int) | Unreadable

  function ParseRetryAfter(h: RetryAfter, now: int): Option<Int64> {
    match h
    case Missing | Unreadable => None
    case Seconds(count) =>
      if count > MAX then None
      else if count as Int64 >= MAX64 / NANOS_PER_SECOND then Some(MAX64)
      else Some(count as Int64 * NANOS_PER_SECOND)
    case At(when) => Some(if when <= now then 0 else Clamp(when - now))
  }

  /** A readable header asks for its exact delay, clamped to the longest one representable. */
  lemma {:induction false} RetryAfterIsExact(h: RetryAfter, now: int)
    ensures h.Missing? || h.Unreadable? || (h.Seconds? && h.count > MAX) <==> ParseRetryAfter(h, now) == None
    ensures h.Seconds? && h.count < 9_223_372_036 ==> ParseRetryAfter(h, now) == Some((h.count * 1_000_000_000) as Int64)
    ensures h.Seconds? && 9_223_372_036 <= h.count <= MAX ==> ParseRetryAfter(h, now) == Some(MAX64)
    ensures h.At? ==> ParseRetryAfter(h, now) == Some(Clamp(NonNegative(h.when - now)))
  {
  }

  // ---------------------------------------------------------------- the delay before the next poll

  datatype Backoff = Fixed | Linear | Exponential

  datatype Poll = Poll(
    mode: Backoff, intervalMs: Int64, baseMs: Int64, maxMs: Int64, jitterMs: Int64, maxAttempts: int,
    successValues: seq<string>, failureValues: seq<string>)

  function Base(p: Poll): Int64 { if p.baseMs == 0 then p.intervalMs else p.baseMs }

  /** The scheduled delay in exact arithmetic, clamped once at the end. */
  function ScheduledMs(p: Poll, attempt: int): Int64 {
    var n := if attempt <= 0 then 1 else attempt;
    match p.mode
    case Fixed => Base(p)
    case Linear => if Base(p) <= 0 then 0 else Clamp(Base(p) as int * n)
    case Exponential => if Base(p) <= 0 then 0 else Clamp(Base(p) as int * Pow2(n - 1))
  }

  /** An extra of any size, brought into [0, jitter]. */
  function Jittered(delayMs: Int64, jitterMs: Int64, extra: Int64): Int64 {
    if jitterMs <= 0 then delayMs
    else
      var most := MsToDuration(jitterMs);
      var bounded := if extra < 0 then 0 else if extra > most then most else extra;
      DurationToMs(SaturatingAdd(MsToDuration(delayMs), bounded))
  }

  function Capped(delayMs: Int64, maxMs: Int64): Int64 {
    var d := if maxMs > 0 && delayMs > maxMs then maxMs else delayMs;
    if d <= 0 then 0 else MsToDuration(d)
  }

  function NextDelaySpec(p: Poll, attempt: int, header: RetryAfter, extra: Int64, now: int): Int64 {
    var scheduled := match ParseRetryAfter(header, now)
      case Some(d) => DurationToMs(d)
      case None => ScheduledMs(p, attempt);
    Capped(Jittered(scheduled, p.jitterMs, extra), p.maxMs)
  }

  method Schedule(p: Poll, attempt: int) returns (delayMs: Int64)
    requires attempt <= MAX
    ensures delayMs == ScheduledMs(p, attempt)
  {
    var n := if attempt <= 0 then 1 else attempt;
    var base := if p.baseMs == 0 then p.intervalMs else p.baseMs;
    delayMs := base;
    match p.mode {
      case Fixed =>
      case Linear => delayMs := SaturatingMultiply(base, n as Int64);
      case Exponential => delayMs := SaturatingPowerOfTwo(base, n - 1);
    }
  }

  method NextDelay(p: Poll, attempt: int, header: RetryAfter, extra: Int64, now: int) returns (delay: Int64)
    requires attempt <= MAX
    ensures delay == NextDelaySpec(p, attempt, header, extra, now)
    ensures Bounded(p, delay)
  {
    DelayIsBounded(p, attempt, header, extra, now);
    hide ScheduledMs, MsToDuration, DurationToMs, SaturatingAdd, ParseRetryAfter, Clamp;
    var delayMs := Schedule(p, attempt);
    var retry := ParseRetryAfter(header, now);
    if retry.Some? {
      delayMs := DurationToMs(retry.value);
    }
    if p.jitterMs > 0 {
      var maxJitter := MsToDuration(p.jitterMs);
      var bounded := if extra < 0 then 0 else if extra > maxJitter then maxJitter else extra;
      delayMs := DurationToMs(SaturatingAdd(MsToDuration(delayMs), bounded));
    }
    if p.maxMs > 0 && delayMs > p.maxMs {
      delayMs := p.maxMs;
    }
    if delayMs <= 0 {
      return 0;
    }
    return MsToDuration(delayMs);
  }

  /** The random draw below the jitter bound plus one fits 64 bits exactly when the jitter is below the largest
      whole-millisecond duration, which the profile validator's limit of one day guarantees. */
  lemma {:induction false} JitterBoundFits(jitterMs: Int64)
    ensures MsToDuration(jitterMs) as int + 1 <= MAX <==> jitterMs < MAX_MS
  {
  }

  lemma {:induction false} ScheduledGrows(p: Poll, a: int, b: int)
    requires a <= b
    ensures ScheduledMs(p, a) <= ScheduledMs(p, b)
  {
    var m, n := if a <= 0 then 1 else a, if b <= 0 then 1 else b;
    if Base(p) > 0 {
      match p.mode
      case Fixed =>
      case Linear => MulMonotone(m, n, Base(p) as int);
      case Exponential => DoublingGrows(Base(p) as int, m - 1, n - 1);
    }
  }

  lemma {:induction false} CappedGrows(a: Int64, b: Int64, maxMs: Int64)
    requires a <= b
    ensures Capped(a, maxMs) <= Capped(b, maxMs)
  {
  }

  /** Without jitter and Retry-After the schedule never shortens. */
  lemma {:induction false} ScheduleIsNondecreasing(p: Poll, a: int, b: int, extra: Int64, other: Int64, now: int, later: int)
    requires p.jitterMs <= 0 && a <= b
    ensures NextDelaySpec(p, a, Missing, extra, now) <= NextDelaySpec(p, b, Missing, other, later)
  {
    hide ScheduledMs, Capped;
    ScheduledGrows(p, a, b);
    CappedGrows(ScheduledMs(p, a), ScheduledMs(p, b), p.maxMs);
  }

  predicate Bounded(p: Poll, d: Int64) { d >= 0 && (p.maxMs > 0 ==> DurationToMs(d) <= p.maxMs) }

  /** Whatever the header asks for, the delay is nonnegative and within the configured maximum. */
  lemma {:induction false} DelayIsBounded(p: Poll, attempt: int, header: RetryAfter, extra: Int64, now: int)
    ensures Bounded(p, NextDelaySpec(p, attempt, header, extra, now))
  {
    var scheduled := match ParseRetryAfter(header, now)
      case Some(d) => DurationToMs(d)
      case None => ScheduledMs(p, attempt);
    var ms := Jittered(scheduled, p.jitterMs, extra);
    MsRoundTrip(if p.maxMs > 0 && ms > p.maxMs then p.maxMs else ms);
    hide ScheduledMs, Jittered, ParseRetryAfter, MsToDuration, DurationToMs;
  }

  // ---------------------------------------------------------------- the wait loop

  datatype Reply = PollError | Status(value: string, http: int)

  /** What the world does around one poll: whether the wait is already over, the provider's reply, and whether the
      sleep afterwards is interrupted. */
  datatype Round = Round(over: bool, reply: Reply, header: RetryAfter, extra: Int64, now: int, interrupted: bool)

  datatype Verdict = Pending | Success | Failure

  datatype Ending = Succeeded(value: string) | ProviderFailed(value: string) | LastPollError | TimedOut

  datatype Waited = Waited(ending: Ending, polls: nat, observed: seq<Verdict>, delays: seq<Int64>)

  function VerdictOf(p: Poll, reply: Reply): Verdict {
    match reply
    case PollError => Failure
    case Status(value, _) =>
      if value in p.successValues then Success else if value in p.failureValues then Failure else Pending
  }

  /** The loop from attempt n on; `failed` is whether some earlier poll ended in an error. */
  function WaitFrom(p: Poll, n: nat, failed: bool, world: nat -> Round): Waited
    requires 1 <= n <= p.maxAttempts
    decreases p.maxAttempts - n
  {
    var r := world(n);
    if r.over then Waited(TimedOut, n - 1, [], [])
    else
      var v := VerdictOf(p, r.reply);
      if r.reply.Status? && v == Success then Waited(Succeeded(r.reply.value), n, [Success], [])
      else if r.reply.Status? && v == Failure then Waited(ProviderFailed(r.reply.value), n, [Failure], [])
      else
        var failed' := failed || r.reply.PollError?;
        if n == p.maxAttempts then Waited(if failed' then LastPollError else TimedOut, n, [v], [])
        else
          var d := NextDelaySpec(p, n, r.header, r.extra, r.now);
          if d > 0 && r.interrupted then Waited(TimedOut, n, [v], [d])
          else
            var rest := WaitFrom(p, n + 1, failed', world);
            rest.(observed := [v] + rest.observed, delays := [d] + rest.delays)
  }

  /** Success values are looked at before failure values. */
  method Observe(p: Poll, reply: Reply) returns (v: Verdict)
    ensures v == VerdictOf(p, reply)
  {
    match reply {
      case PollError => return Failure;
      case Status(value, _) =>
        if value in p.successValues {
          return Success;
        }
        if value in p.failureValues {
          return Failure;
        }
        return Pending;
    }
  }

  /** What the loop will return, given what it has recorded and how the rest goes. */
  function After(observed: seq<Verdict>, delays: seq<Int64>, rest: Waited): Waited {
    rest.(observed := observed + rest.observed, delays := delays + rest.delays)
  }

  lemma {:induction false} AfterNothing(w: Waited)
    ensures After([], [], w) == w
  {
  }

  lemma {:induction false} AfterOneMore(observed: seq<Verdict>, delays: seq<Int64>, v: Verdict, d: Int64, rest: Waited)
    ensures After(observed, delays, rest.(observed := [v] + rest.observed, delays := [d] + rest.delays)) ==
            After(observed + [v], delays + [d], rest)
  {
    assert observed + ([v] + rest.observed) == observed + [v] + rest.observed;
    assert delays + ([d] + rest.delays) == delays + [d] + rest.delays;
  }

  lemma {:induction false} AfterLast(
    observed: seq<Verdict>, delays: seq<Int64>, ending: Ending, polls: nat, last: seq<Verdict>, slept: seq<Int64>)
    ensures After(observed, delays, Waited(ending, polls, last, slept)) == Waited(ending, polls, observed + last, delays + slept)
  {
  }

  method Wait(p: Poll, world: nat -> Round) returns (w: Waited)
    requires 0 < p.maxAttempts <= MAX
    ensures w == WaitFrom(p, 1, false, world)
  {
    hide NextDelaySpec, VerdictOf, Bounded, After;
    var observed: seq<Verdict> := [];
    var delays: seq<Int64> := [];
    var failed := false;
    var n := 1;
    AfterNothing(WaitFrom(p, 1, false, world));
    while true
      invariant 1 <= n <= p.maxAttempts
      invariant WaitFrom(p, 1, false, world) == After(observed, delays, WaitFrom(p, n, failed, world))
      decreases p.maxAttempts - n
    {
      var r := world(n);
      if r.over {
        AfterLast(observed, delays, TimedOut, n - 1, [], []);
        return Waited(TimedOut, n - 1, observed, delays);
      }
      var verdict := Observe(p, r.reply);
      if r.reply.PollError? {
        failed := true;
      } else if verdict == Success {
        AfterLast(observed, delays, Succeeded(r.reply.value), n, [Success], []);
        return Waited(Succeeded(r.reply.value), n, observed + [Success], delays);
      } else if verdict == Failure {
        AfterLast(observed, delays, ProviderFailed(r.reply.value), n, [Failure], []);
        return Waited(ProviderFailed(r.reply.value), n, observed + [Failure], delays);
      }
      if n == p.maxAttempts {
        var ending := if failed then LastPollError else TimedOut;
        AfterLast(observed, delays, ending, n, [verdict], []);
        return Waited(ending, n, observed + [verdict], delays);
      }
      var d := NextDelay(p, n, r.header, r.extra, r.now);
      if d > 0 && r.interrupted {
        AfterLast(observed, delays, TimedOut, n, [verdict], [d]);
        return Waited(TimedOut, n, observed + [verdict], delays + [d]);
      }
      AfterOneMore(observed, delays, verdict, d, WaitFrom(p, n + 1, failed, world));
      observed, delays := observed + [verdict], delays + [d];
      n := n + 1;
    }
  }

  /** The loop makes at most the allowed polls and records one observation per poll, in order. */
  lemma {:induction false} WaitIsBounded(p: Poll, n: nat, failed: bool, world: nat -> Round)
    requires 1 <= n <= p.maxAttempts
    ensures var w := WaitFrom(p, n, failed, world);
      && n - 1 <= w.polls <= p.maxAttempts && |w.observed| == w.polls - (n - 1)
      && (forall i :: 0 <= i < |w.observed| ==> w.observed[i] == VerdictOf(p, world(n + i).reply))
    decreases p.maxAttempts - n
  {
    hide NextDelaySpec, VerdictOf;
    var r := world(n);
    VerdictOfError(p);
    if n == p.maxAttempts {
    } else {
      WaitIsBounded(p, n + 1, failed || r.reply.PollError?, world);
    }
  }

  predicate EndsInSuccess(observed: seq<Verdict>) { observed != [] && observed[|observed| - 1] == Success }

  predicate NoneBefore(observed: seq<Verdict>) { forall i :: 0 <= i < |observed| - 1 ==> observed[i] != Success }

  lemma {:induction false} OneVerdict(v: Verdict)
    ensures EndsInSuccess([v]) <==> v == Success
    ensures NoneBefore([v])
  {
  }

  lemma {:induction false} OneMoreVerdict(v: Verdict, rest: seq<Verdict>)
    requires v != Success && NoneBefore(rest)
    ensures EndsInSuccess([v] + rest) <==> EndsInSuccess(rest)
    ensures NoneBefore([v] + rest)
  {
  }

  /** The wait succeeds exactly when its last poll matched a success value, and no earlier poll matched one. */
  lemma {:induction false} SucceedsExactlyOnSuccess(p: Poll, n: nat, failed: bool, world: nat -> Round)
    requires 1 <= n <= p.maxAttempts
    ensures var w := WaitFrom(p, n, failed, world);
      (w.ending.Succeeded? <==> EndsInSuccess(w.observed)) && NoneBefore(w.observed)
    decreases p.maxAttempts - n
  {
    hide NextDelaySpec, VerdictOf;
    var r := world(n);
    var v := VerdictOf(p, r.reply);
    VerdictOfError(p);
    OneVerdict(v);
    if n == p.maxAttempts {
    } else {
      var failed' := failed || r.reply.PollError?;
      SucceedsExactlyOnSuccess(p, n + 1, failed', world);
      if v != Success { OneMoreVerdict(v, WaitFrom(p, n + 1, failed', world).observed); }
    }
  }

  /** Every sleep of the loop is nonnegative and within the configured maximum. */
  lemma {:induction false} SleepsAreBounded(p: Poll, n: nat, failed: bool, world: nat -> Round)
    requires 1 <= n <= p.maxAttempts
    ensures forall i :: 0 <= i < |WaitFrom(p, n, failed, world).delays| ==> Bounded(p, WaitFrom(p, n, failed, world).delays[i])
    decreases p.maxAttempts - n
  {
    hide NextDelaySpec, VerdictOf, Bounded;
    var r := world(n);
    DelayIsBounded(p, n, r.header, r.extra, r.now);
    if n == p.maxAttempts {
    } else {
      var failed' := failed || r.reply.PollError?;
      SleepsAreBounded(p, n + 1, failed', world);
    }
  }

  lemma {:induction false} VerdictOfError(p: Poll)
    ensures VerdictOf(p, PollError) == Failure
  {
  }

  /** Some poll from the nth to the last one ended in an error. */
  ghost predicate SomeError(n: nat, last: nat, world: nat -> Round) {
    exists i: nat :: n <= i <= last && world(i).reply.PollError?
  }

  lemma {:induction false} SomeErrorSplits(n: nat, last: nat, world: nat -> Round)
    requires n <= last
    ensures SomeError(n, last, world) <==> world(n).reply.PollError? || SomeError(n + 1, last, world)
  {
  }

  /** What the loop returns says exactly why it ended: a decisive value was the provider's own answer to the last poll,
      and a loop that used up its polls reports a poll error if and only if one of them failed. */
  lemma {:induction false} EndingSaysWhy(p: Poll, n: nat, failed: bool, world: nat -> Round)
    requires 1 <= n <= p.maxAttempts
    ensures var w := WaitFrom(p, n, failed, world);
      match w.ending
      case Succeeded(value) => value in p.successValues && world(w.polls).reply.Status? && world(w.polls).reply.value == value
      case ProviderFailed(value) =>
        value in p.failureValues && value !in p.successValues && world(w.polls).reply.Status? && world(w.polls).reply.value == value
      case LastPollError => w.polls == p.maxAttempts && (failed || SomeError(n, w.polls, world))
      case TimedOut =>
        if w.polls == p.maxAttempts then !failed && !SomeError(n, w.polls, world)
        else world(w.polls + 1).over || (n <= w.polls && world(w.polls).interrupted)
    decreases p.maxAttempts - n
  {
    hide NextDelaySpec, SomeError;
    var r := world(n);
    SomeErrorSplits(n, p.maxAttempts, world);
    if n == p.maxAttempts {
      NoneAfterLast(n, world);
    } else {
      EndingSaysWhy(p, n + 1, failed || r.reply.PollError?, world);
      WaitIsBounded(p, n + 1, failed || r.reply.PollError?, world);
    }
  }

  lemma {:induction false} NoneAfterLast(n: nat, world: nat -> Round)
    ensures !SomeError(n + 1, n, world)
  {
  }
}
