/** The backoff of the scheduled retry model: exponential growth by guarded doubling, in 64 bits. */
module Backoff {
  import opened Options

  newtype int64 = x: int | -0x8000_0000_0000_0000 <= x < 0x8000_0000_0000_0000

  const MILLISECOND: int64 := 1_000_000
  const SECOND: int64 := 1_000_000_000
  const MIN_BACKOFF: int64 := MILLISECOND
  const MAX_BACKOFF: int64 := 24 * 3600 * SECOND
  const DEFAULT_BASE: int64 := SECOND

  function Pow2(n: nat): nat { if n == 0 then 1 else 2 * Pow2(n - 1) }

  function Top(maxDelay: int): nat { Max(maxDelay, MIN_BACKOFF as int) }

  function First(base: int, maxDelay: int): nat { Min(Max(base, MIN_BACKOFF as int), Top(maxDelay)) }

  /** b after n doublings. */
  function Doubled(b: nat, n: nat): nat { if n == 0 then b else 2 * Doubled(b, n - 1) }

  lemma {:induction false} DoubledIsPow2(b: nat, n: nat)
    ensures Doubled(b, n) == b * Pow2(n)
  {
    if n > 0 {
      DoubledIsPow2(b, n - 1);
    }
  }

  lemma {:induction false} DoubledGrows(b: nat, m: nat, n: nat)
    requires m <= n
    ensures b <= Doubled(b, m) <= Doubled(b, n)
  {
    if m < n {
      DoubledGrows(b, m, n - 1);
    } else if m > 0 {
      DoubledGrows(b, m - 1, m - 1);
    }
  }

  /** base doubled attempt-1 times, kept within [1ms, max], for any arguments. */
  function Delay(attempt: int, base: int, maxDelay: int): nat {
    Min(Top(maxDelay), Doubled(First(base, maxDelay), if attempt < 1 then 0 else attempt - 1))
  }

  /** Once one more doubling would pass the top, the answer is the top. */
  lemma CappedAt(top: nat, first: nat, k: nat, n: nat)
    requires Doubled(first, k) > top / 2 && k < n
    ensures top <= Doubled(first, n)
  {}

  /** computeBackoff. No operation overflows 64 bits, whatever the arguments, and the number of doublings
      is at most logarithmic in max/base. */
  method ComputeBackoff(attempt: int64, base: int64, maxDelay: int64) returns (delay: int64, ghost doublings: nat)
    ensures delay as int == Delay(attempt as int, base as int, maxDelay as int)
    ensures First(base as int, maxDelay as int) * Pow2(doublings) <= Top(maxDelay as int)
  {
    var top, first, tries := maxDelay, base, attempt;
    if top < MIN_BACKOFF {
      top := MIN_BACKOFF;
    }
    if first < MIN_BACKOFF {
      first := MIN_BACKOFF;
    }
    if first > top {
      first := top;
    }
    if tries < 1 {
      tries := 1;
    }
    ghost var f, t := First(base as int, maxDelay as int), Top(maxDelay as int);
    assert f == first as int && t == top as int;
    delay := first;
    doublings := 0;
    var i: int64 := 1;
    while i < tries
      invariant 1 <= i <= tries && doublings == i as nat - 1
      invariant MIN_BACKOFF <= delay <= top
      invariant delay as int == Doubled(f, doublings)
      decreases tries - i
    {
      if delay > top / 2 {
        CappedAt(t, f, doublings, tries as nat - 1);
        DoubledIsPow2(f, doublings);
        return top, doublings;
      }
      delay := delay * 2;
      doublings := doublings + 1;
      i := i + 1;
    }
    DoubledIsPow2(f, doublings);
    if delay > top {
      return top, doublings;
    }
    if delay < MIN_BACKOFF {
      return MIN_BACKOFF, doublings;
    }
  }

  /** A later attempt never waits less. */
  lemma NonDecreasing(a: int, b: int, base: int, maxDelay: int)
    requires a <= b
    ensures MIN_BACKOFF as int <= Delay(a, base, maxDelay) <= Delay(b, base, maxDelay) <= Top(maxDelay)
  {
    DoubledGrows(First(base, maxDelay), if a < 1 then 0 else a - 1, if b < 1 then 0 else b - 1);
  }

  // ----- Which configurations a route accepts -----

  datatype ScheduledRetry = ScheduledRetry(
    targetArn: string, roleArn: string, dlqUrl: string, maxRetryCount: int, base: int, maxDelay: int)

  datatype Problem = DlqConflict | MissingIdentity | MissingDlq | RetryCountRange | BaseRange | MaxRange | MaxBelowBase

  const MAX_RETRY_COUNT := 0x7fff_ffff

  /** validateScheduledRetry: the first rule broken, in the order they are checked. */
  function Validate(observeOnlyDlq: bool, c: ScheduledRetry): Option<Problem> {
    if observeOnlyDlq then Some(DlqConflict)
    else if c.targetArn == "" || c.roleArn == "" then Some(MissingIdentity)
    else if c.dlqUrl == "" then Some(MissingDlq)
    else if c.maxRetryCount < 0 || c.maxRetryCount > MAX_RETRY_COUNT then Some(RetryCountRange)
    else if c.base < MIN_BACKOFF as int || c.base > MAX_BACKOFF as int then Some(BaseRange)
    else if c.maxDelay < MIN_BACKOFF as int || c.maxDelay > MAX_BACKOFF as int then Some(MaxRange)
    else if c.maxDelay < c.base then Some(MaxBelowBase)
    else None
  }

  /** A configuration is accepted exactly when it is complete and its numbers are in order. */
  lemma AcceptedIff(observeOnlyDlq: bool, c: ScheduledRetry)
    ensures Validate(observeOnlyDlq, c).None? <==>
            && !observeOnlyDlq && "" !in {c.targetArn, c.roleArn, c.dlqUrl}
            && 0 <= c.maxRetryCount <= 2_147_483_647
            && 1_000_000 <= c.base <= c.maxDelay <= 86_400_000_000_000
  {}

  /** The rules a configuration can break, in the order in which they are checked. */
  predicate Breaks(p: Problem, observeOnlyDlq: bool, c: ScheduledRetry) {
    match p
    case DlqConflict => observeOnlyDlq
    case MissingIdentity => "" in {c.targetArn, c.roleArn}
    case MissingDlq => c.dlqUrl == ""
    case RetryCountRange => !(0 <= c.maxRetryCount <= 2_147_483_647)
    case BaseRange => !(1_000_000 <= c.base <= 86_400_000_000_000)
    case MaxRange => !(1_000_000 <= c.maxDelay <= 86_400_000_000_000)
    case MaxBelowBase => c.maxDelay < c.base
  }

  function Rank(p: Problem): nat {
    match p
    case DlqConflict => 0
    case MissingIdentity => 1
    case MissingDlq => 2
    case RetryCountRange => 3
    case BaseRange => 4
    case MaxRange => 5
    case MaxBelowBase => 6
  }

  /** The problem reported is the first rule broken. */
  lemma FirstBroken(observeOnlyDlq: bool, c: ScheduledRetry, p: Problem)
    ensures Validate(observeOnlyDlq, c) == Some(p) <==>
            Breaks(p, observeOnlyDlq, c) && forall q: Problem :: Breaks(q, observeOnlyDlq, c) ==> Rank(p) <= Rank(q)
  {
    var found := Validate(observeOnlyDlq, c);
    if found.Some? {
      assert Breaks(found.value, observeOnlyDlq, c);
      assert Rank(p) == Rank(found.value) ==> p == found.value;
    }
  }

  /** WithScheduledRetry: an unset base becomes one second before the check. */
  function WithDefault(c: ScheduledRetry): ScheduledRetry {
    if c.base == 0 then c.(base := DEFAULT_BASE as int) else c
  }

  /** Within these bounds the clamping of the inputs never acts. */
  lemma DelayIs(attempt: nat, base: nat, maxDelay: nat)
    requires attempt >= 1 && MIN_BACKOFF as int <= base <= maxDelay
    ensures Delay(attempt, base, maxDelay) == Min(maxDelay, base * Pow2(attempt - 1))
    ensures base <= Delay(attempt, base, maxDelay) <= maxDelay
  {
    DoubledIsPow2(base, attempt - 1);
    DoubledGrows(base, 0, attempt - 1);
  }

  /** The default acts on an unset base only: a base that was configured is kept, and nothing else changes. */
  lemma DefaultOnlyWhenUnset(c: ScheduledRetry)
    ensures WithDefault(c) == if c.base == 0 then c.(base := 1_000_000_000) else c
  {}

  /** For any arguments: a maximum or base below a millisecond counts as one, a base above the maximum as
      the maximum, an attempt below one as the first. */
  lemma DelayOfAny(attempt: int, base: int, maxDelay: int)
    ensures var most := Max(maxDelay, 1_000_000);
            var first := Min(Max(base, 1_000_000), most);
            var tries: nat := Max(attempt, 1);
            Delay(attempt, base, maxDelay) == Min(most, first * Pow2(tries - 1))
  {
    DoubledIsPow2(First(base, maxDelay), if attempt < 1 then 0 else attempt - 1);
  }

  /** For every accepted configuration and every attempt the delay is exactly
      min(max, base * 2^(attempt-1)). */
  lemma AcceptedIsExact(c: ScheduledRetry, observeOnlyDlq: bool, attempt: nat)
    requires Validate(observeOnlyDlq, WithDefault(c)).None? && attempt >= 1
    ensures var d := WithDefault(c);
            && Delay(attempt, d.base, d.maxDelay) == Min(d.maxDelay, d.base * Pow2(attempt - 1))
            && d.base <= Delay(attempt, d.base, d.maxDelay) <= d.maxDelay <= MAX_BACKOFF as int
            && 0 <= d.maxRetryCount <= MAX_RETRY_COUNT && !observeOnlyDlq
  {
    DelayIs(attempt, WithDefault(c).base, WithDefault(c).maxDelay);
  }

  /** scheduleAt: whole seconds, so the fire time is up to one second early. Times are non-negative. */
  function ScheduleAt(now: nat, backoff: nat): nat { (now + backoff) / SECOND as nat * SECOND as nat }

  lemma FiresWithinASecond(now: nat, backoff: nat)
    ensures now + backoff - 1_000_000_000 < ScheduleAt(now, backoff) <= now + backoff
    ensures ScheduleAt(now, backoff) % 1_000_000_000 == 0
    ensures backoff >= 1_000_000_000 ==> ScheduleAt(now, backoff) > now
  {}

  /** The fire time is still to come exactly when the backoff reaches the next whole second. */
  lemma FiresLaterIff(now: nat, backoff: nat)
    ensures ScheduleAt(now, backoff) > now <==> now % SECOND as nat + backoff >= SECOND as nat
  {}

  /** It is still to come whenever the failure happens exactly for backoffs of a second or more: a shorter
      one is truncated to a fire time that has not come or has already passed, depending on the instant. */
  lemma AlwaysFiresLaterIff(backoff: nat)
    ensures (forall now: nat :: ScheduleAt(now, backoff) > now) <==> backoff >= SECOND as nat
  {
    if backoff < SECOND as nat {
      FiresLaterIff(0, backoff);
      assert ScheduleAt(0, backoff) <= 0;
    } else {
      forall now: nat ensures ScheduleAt(now, backoff) > now {
        FiresLaterIff(now, backoff);
      }
    }
  }

  /** The shortest backoff, half a second into a second, fires in the past. */
  lemma SubSecondCanFireInThePast()
    ensures ScheduleAt(1_500_000_000, MIN_BACKOFF as nat) == 1_000_000_000 < 1_500_000_000
  {}
}
