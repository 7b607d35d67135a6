/** What `PollSchedule` asks for: which delay comes next, whatever else the profile says, and which poll ends the wait. */
module PollEffects {
  import opened Wrappers
  import opened PollSchedule

  // ---------------------------------------------------------------- which delay comes next

  function Least(a: int, b: int): int { if a < b then a else b }

  /** The delay with nothing drawn, capped or asked for by the provider. */
  function Plain(p: Poll, attempt: int): int { NextDelaySpec(p.(jitterMs := 0, maxMs := 0), attempt, Missing, 0, 0) as int }

  /** A readable Retry-After decides the delay whatever the profile's backoff and the attempt: so many whole seconds, or
      the whole milliseconds left until the date and nothing for a date that has passed, each cut at the maximum alone. */
  lemma {:induction false} HeaderDecides(p: Poll, attempt: int, h: RetryAfter, extra: Int64, now: int)
    requires p.jitterMs <= 0
    ensures var d := NextDelaySpec(p, attempt, h, extra, now) as int;
      && (h.Seconds? && h.count < 9_223_372_036 ==>
            d == 1_000_000 * (if p.maxMs > 0 then Least(1000 * h.count, p.maxMs as int) else 1000 * h.count))
      && (h.Seconds? && 9_223_372_036 <= h.count <= MAX && p.maxMs <= 0 ==> d == MAX)
      && (h.At? && h.when <= now ==> d == 0)
      && (h.At? && 0 < h.when - now < MAX_MS as int * 1_000_000 ==>
            var left := (h.when - now) / 1_000_000;
            d == 1_000_000 * (if p.maxMs > 0 then Least(left, p.maxMs as int) else left))
  {
    if h.Seconds? && h.count < 9_223_372_036 { assert (h.count * 1_000_000_000) / 1_000_000 == 1000 * h.count; }
    hide ScheduledMs;
  }

  /** A header that cannot be read, or is not there, asks for nothing: the backoff decides. */
  lemma {:induction false} UnreadableHeaderIsIgnored(p: Poll, attempt: int, h: RetryAfter, extra: Int64, now: int)
    requires h.Missing? || h.Unreadable? || (h.Seconds? && h.count > MAX)
    ensures NextDelaySpec(p, attempt, h, extra, now) == NextDelaySpec(p, attempt, Missing, extra, now)
  {
    hide ScheduledMs, Jittered, Capped;
  }

  /** The schedule depends on the mode and the base alone. */
  lemma {:induction false} ScheduleIsItsOwn(p: Poll, q: Poll, attempt: int)
    requires p.mode == q.mode && Base(p) == Base(q)
    ensures ScheduledMs(p, attempt) == ScheduledMs(q, attempt)
  {
    hide Pow2, Clamp;
  }

  lemma {:induction false} PlainIsScheduled(p: Poll, attempt: int)
    ensures Plain(p, attempt) == MsToDuration(ScheduledMs(p, attempt)) as int
  {
    ScheduleIsItsOwn(p, p.(jitterMs := 0, maxMs := 0), attempt);
    hide ScheduledMs;
  }

  lemma {:induction false} ScheduleFollowsItsMode(p: Poll, n: int)
    requires n >= 1
    ensures ScheduledMs(p, 1) == if p.mode.Fixed? || Base(p) > 0 then Base(p) else 0
    ensures Base(p) >= 0 && (ScheduledMs(p, n + 1) as int) < MAX ==> (
      match p.mode
      case Fixed => ScheduledMs(p, n + 1) == ScheduledMs(p, n)
      case Linear => ScheduledMs(p, n + 1) as int == ScheduledMs(p, n) as int + ScheduledMs(p, 1) as int
      case Exponential => ScheduledMs(p, n + 1) as int == 2 * ScheduledMs(p, n) as int)
  {
    var base := Base(p) as int;
    if base > 0 {
      match p.mode
      case Fixed =>
      case Linear =>
        MulMonotone(1, n, base);
        assert n * base + base == (n + 1) * base;
      case Exponential =>
        DoublingGrows(base, n - 1, n);
        assert base * Pow2(n) == 2 * (base * Pow2(n - 1));
    }
  }

  /** The first delay is the base, or the interval if the base is 0; up to saturation each further one is the same, the
      base longer, or twice as long, as the mode says. A count below 1 is taken as the first. */
  lemma {:induction false} DelaysFollowTheirMode(p: Poll, attempt: int, early: int)
    requires early < 1 <= attempt && p.intervalMs >= 0 && p.baseMs >= 0
    ensures Plain(p, early) == Plain(p, 1) == MsToDuration(if p.baseMs == 0 then p.intervalMs else p.baseMs) as int
    ensures Plain(p, attempt + 1) < MAX ==> (
      match p.mode
      case Fixed => Plain(p, attempt + 1) == Plain(p, attempt)
      case Linear => Plain(p, attempt + 1) == Plain(p, attempt) + Plain(p, 1)
      case Exponential => Plain(p, attempt + 1) == 2 * Plain(p, attempt))
  {
    PlainIsScheduled(p, early);
    PlainIsScheduled(p, 1);
    PlainIsScheduled(p, attempt);
    PlainIsScheduled(p, attempt + 1);
    ScheduleFollowsItsMode(p, attempt);
    assert ScheduledMs(p, early) == ScheduledMs(p, 1) by { hide Pow2, Clamp; }
    ScheduledGrows(p, 1, attempt);
    hide ScheduledMs, Plain;
  }

  /** The maximum cuts what comes out without it. */
  lemma {:induction false} MaximumCuts(p: Poll, attempt: int, h: RetryAfter, extra: Int64, now: int)
    requires p.maxMs > 0
    ensures NextDelaySpec(p, attempt, h, extra, now) as int ==
      Least(NextDelaySpec(p.(maxMs := 0), attempt, h, extra, now) as int, MsToDuration(p.maxMs) as int)
  {
    ScheduleIsItsOwn(p, p.(maxMs := 0), attempt);
    hide ScheduledMs, Jittered, ParseRetryAfter;
  }

  lemma {:induction false} WholePart(ms: int, rest: int)
    requires rest >= 0
    ensures (ms * 1_000_000 + rest) / 1_000_000 == ms + rest / 1_000_000
  {
  }

  lemma {:induction false} JitterOn(ms: Int64, jitterMs: Int64, extra: Int64)
    requires 0 < jitterMs < MAX_MS
    ensures var without, drawn := Capped(ms, 0) as int, if extra < 0 then 0 else Least(extra as int, jitterMs as int * 1_000_000);
      without + drawn < MAX_MS as int * 1_000_000 ==>
        Capped(Jittered(ms, jitterMs, extra), 0) as int == without + drawn / 1_000_000 * 1_000_000
  {
    var drawn := if extra < 0 then 0 else Least(extra as int, jitterMs as int * 1_000_000);
    WholePart(NonNegative(ms as int), drawn);
  }

  /** Below saturation the jitter adds the whole milliseconds of the draw, brought into the bounds first. */
  lemma {:induction false} JitterAddsTheDraw(p: Poll, attempt: int, h: RetryAfter, extra: Int64, now: int)
    requires 0 < p.jitterMs < MAX_MS && p.maxMs <= 0
    ensures var without := NextDelaySpec(p.(jitterMs := 0), attempt, h, extra, now) as int;
      var drawn := if extra < 0 then 0 else Least(extra as int, p.jitterMs as int * 1_000_000);
      without + drawn < MAX_MS as int * 1_000_000 ==>
        NextDelaySpec(p, attempt, h, extra, now) as int == without + drawn / 1_000_000 * 1_000_000
  {
    ScheduleIsItsOwn(p, p.(jitterMs := 0), attempt);
    var ms := match ParseRetryAfter(h, now)
      case Some(d) => DurationToMs(d)
      case None => ScheduledMs(p, attempt);
    JitterOn(ms, p.jitterMs, extra);
    hide ScheduledMs, ParseRetryAfter, MsToDuration, DurationToMs, SaturatingAdd;
  }

  // ---------------------------------------------------------------- which poll ends the wait

  /** The reply settles nothing: the poll failed, or the value is in neither list. */
  predicate Undecided(p: Poll, reply: Reply) {
    reply.Status? ==> reply.value !in p.successValues && reply.value !in p.failureValues
  }

  /** A poll that the wait goes on after, if polls are left. */
  predicate Continues(p: Poll, n: nat, r: Round) {
    !r.over && Undecided(p, r.reply) && (r.interrupted ==> NextDelaySpec(p, n, r.header, r.extra, r.now) == 0)
  }

  /** A success value counts as one even if it is a failure value too, and a failed poll is recorded as a failure. */
  lemma {:induction false} VerdictsMean(p: Poll, reply: Reply)
    ensures VerdictOf(p, reply) == Success <==> reply.Status? && reply.value in p.successValues
    ensures VerdictOf(p, reply) == Pending <==> reply.Status? && Undecided(p, reply)
    ensures reply.PollError? ==> VerdictOf(p, reply) == Failure
  {
  }

  lemma {:induction false} UndecidedContinues(p: Poll, n: nat, failed: bool, world: nat -> Round)
    requires 1 <= n < p.maxAttempts && Continues(p, n, world(n))
    ensures var w, rest := WaitFrom(p, n, failed, world), WaitFrom(p, n + 1, failed || world(n).reply.PollError?, world);
      w.ending == rest.ending && w.polls == rest.polls && |w.delays| == 1 + |rest.delays|
  {
    hide NextDelaySpec;
  }

  /** How the wait ends at a poll that it does not go on after. */
  ghost predicate EndsAt(p: Poll, n: nat, k: nat, failed: bool, world: nat -> Round, w: Waited) {
    var r := world(k);
    && (r.over ==> w.ending == TimedOut && w.polls == k - 1)
    && (!r.over && r.reply.Status? && r.reply.value in p.successValues ==> w.ending == Succeeded(r.reply.value) && w.polls == k)
    && (!r.over && r.reply.Status? && r.reply.value in p.failureValues && r.reply.value !in p.successValues ==>
          w.ending == ProviderFailed(r.reply.value) && w.polls == k)
    && (!r.over && Undecided(p, r.reply) ==>
          w.polls == k && w.ending == if k == p.maxAttempts && (failed || SomeError(n, k, world)) then LastPollError else TimedOut)
  }

  lemma {:induction false} EndsHere(p: Poll, k: nat, failed: bool, world: nat -> Round)
    requires 1 <= k <= p.maxAttempts && (k == p.maxAttempts || !Continues(p, k, world(k)))
    ensures EndsAt(p, k, k, failed, world, WaitFrom(p, k, failed, world))
  {
    DelayIsBounded(p, k, world(k).header, world(k).extra, world(k).now);
    hide NextDelaySpec, SomeError;
    SomeErrorSplits(k, k, world);
    NoneAfterLast(k, world);
  }

  /** The wait ends at the first poll that is decisive, finds it over, is interrupted before the next, or is the last one,
      and says so: the earlier polls decide nothing but whether an exhausted wait reports an error. */
  lemma {:induction false} FirstDecisionEnds(p: Poll, n: nat, k: nat, failed: bool, world: nat -> Round)
    requires 1 <= n <= k <= p.maxAttempts && (k == p.maxAttempts || !Continues(p, k, world(k)))
    requires forall i :: n <= i < k ==> Continues(p, i, world(i))
    ensures EndsAt(p, n, k, failed, world, WaitFrom(p, n, failed, world))
    decreases k - n
  {
    hide NextDelaySpec, SomeError, Continues;
    if n == k {
      EndsHere(p, k, failed, world);
    } else {
      assert Continues(p, n, world(n));
      UndecidedContinues(p, n, failed, world);
      FirstDecisionEnds(p, n + 1, k, failed || world(n).reply.PollError?, world);
      SomeErrorSplits(n, k, world);
    }
  }

  /** After each poll that is followed by another the wait sleeps for the delay due after that poll. */
  lemma {:induction false} SleepsFollowTheSchedule(p: Poll, n: nat, failed: bool, world: nat -> Round)
    requires 1 <= n <= p.maxAttempts
    ensures var w := WaitFrom(p, n, failed, world);
      && w.polls - n <= |w.delays|
      && (forall i :: 0 <= i < |w.delays| ==>
            w.delays[i] == NextDelaySpec(p, n + i, world(n + i).header, world(n + i).extra, world(n + i).now))
    decreases p.maxAttempts - n
  {
    hide NextDelaySpec, VerdictOf;
    if n == p.maxAttempts {
    } else {
      SleepsFollowTheSchedule(p, n + 1, failed || world(n).reply.PollError?, world);
    }
  }
}
