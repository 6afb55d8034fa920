/** The Retry-After header (section 10.2.3 of RFC 9110): whether waiting as told is enough. */
module RetryAfter {
  import opened Clock
  import opened Wrappers
  import opened TokenBucket
  import TransactionGuard

  /** Whole seconds, cut, and at least one. */
  function RetryAfterSeconds(wait: Duration): int {
    if wait < SECOND then 1 else wait / SECOND
  }

  function PrintedWait(wait: Duration): Duration { RetryAfterSeconds(wait) * 1_000_000_000 }

  /** The shortest wait that refills the missing part of a token. */
  function ShortestWait(b: Bucket): Duration
    requires b.tokens < Tokens(1)
  {
    (Tokens(1) - b.tokens + b.limit - 1) / b.limit
  }

  lemma QuotientExact(x: int, d: int, q: int)
    requires d > 0 && q == x / d
    ensures q * d <= x < q * d + d
  {
  }

  lemma ScaleUp(a: int, b: int, d: int)
    requires a <= b && d > 0
    ensures a * d <= b * d
  {
  }

  /** A wait refills the missing part exactly when it is at least the shortest one. */
  lemma EnoughIffShortestWait(b: Bucket, w: Duration)
    requires b.tokens < Tokens(1) && w >= 0
    ensures b.limit * w >= Tokens(1) - b.tokens <==> w >= ShortestWait(b)
  {
    var x, s := Tokens(1) - b.tokens, ShortestWait(b);
    QuotientExact(x + b.limit - 1, b.limit, s);
    if w >= s {
      ScaleUp(s, w, b.limit);
    } else {
      ScaleUp(w + 1, s, b.limit);
      OneMoreTimes(w, b.limit);
    }
  }

  lemma OneMoreTimes(n: int, d: int)
    ensures (n + 1) * d == n * d + d
  {
  }

  /** The reported wait, printed in whole seconds, covers the shortest wait and exceeds it by at most a second. */
  lemma PrintedWaitBrackets(b: Bucket)
    requires b.tokens < Tokens(1)
    ensures ShortestWait(b) <= PrintedWait(DenialWait(b)) <= ShortestWait(b) + SECOND
  {
    var x, s := Tokens(1) - b.tokens, ShortestWait(b);
    var q := x / b.limit;
    QuotientExact(x, b.limit, q);
    QuotientExact(x + b.limit - 1, b.limit, s);
    QuotientBetween(x, b.limit, q, s);
    assert q >= 0;
    assert DenialWait(b) == q + SECOND;
    assert PrintedWait(q + SECOND) == (q / 1_000_000_000 + 1) * 1_000_000_000;
  }

  lemma QuotientBetween(x: int, d: int, q: int, s: int)
    requires d > 0 && x > 0 && q * d <= x < q * d + d && s * d <= x + d - 1 < s * d + d
    ensures 0 <= q <= s <= q + 1
  {
    if q < 0 { ScaleUp(q, -1, d); }
    if s < q { ScaleUp(s + 1, q, d); OneMoreTimes(s, d); }
    if s > q + 1 { ScaleUp(q + 2, s, d); OneMoreTimes(q + 1, d); OneMoreTimes(q, d); }
  }

  /** The limiter's header is sufficient and tight: after a denial at a time the bucket has not passed, a lone retry is
      admitted exactly from the shortest wait on; the printed wait reaches it and overshoots by at most one second. */
  lemma LimiterHeaderIsSufficientAndTight(b: Bucket, call: LimiterCall, w: Duration)
    requires call.limit > 0 && call.now >= b.lastRefill && w >= 0
    requires !Allow(Some(b), call).1
    ensures var denied := Allow(Some(b), call).0.value;
            var printed := PrintedWait(DenialWait(denied));
            && denied.tokens < Tokens(1)
            && (Allow(Some(denied), call.(now := call.now + w)).1 <==> w >= ShortestWait(denied))
            && Allow(Some(denied), call.(now := call.now + printed)).1
            && ShortestWait(denied) <= printed <= ShortestWait(denied) + SECOND
  {
    var denied := Allow(Some(b), call).0.value;
    assert denied == Refill(b, call.now) && denied.tokens < Tokens(1);
    PrintedWaitBrackets(denied);
    assert denied.lastRefill == call.now;
    RetryAdmittedIff(denied, call, w);
    ShortestWaitPositive(denied);
    RetryAdmittedIff(denied, call, PrintedWait(DenialWait(denied)));
  }

  lemma ShortestWaitPositive(b: Bucket)
    requires b.tokens < Tokens(1)
    ensures ShortestWait(b) > 0
  {
    QuotientExact(Tokens(1) - b.tokens + b.limit - 1, b.limit, ShortestWait(b));
    if ShortestWait(b) <= 0 { ScaleUp(ShortestWait(b), 0, b.limit); }
  }

  lemma RetryAdmittedIff(denied: Bucket, call: LimiterCall, w: Duration)
    requires call.limit > 0 && denied.tokens < Tokens(1) && w >= 0
    requires denied.lastRefill == call.now
    ensures Allow(Some(denied), call.(now := call.now + w)).1 <==> w >= ShortestWait(denied)
  {
    EnoughIffShortestWait(denied, w);
    hide ShortestWait;
    assert Tokens(denied.limit) >= Tokens(1);
  }

  /** The guard's cooldown hint loses its fraction: a call inside the cooldown is denied, and one that retries after the
      printed wait clears the cooldown exactly when what was left of it was under a second or a whole number of seconds. */
  lemma CooldownHeaderSufficesIff(state: TransactionGuard.GuardState, cooldown: Duration, dailyLimit: int,
                                  call: TransactionGuard.GuardCall, later: int)
    requires state.last.Some? && call.now < state.last.value + cooldown
    ensures var left := state.last.value + cooldown - call.now;
            var (denied, verdict) := TransactionGuard.Allow(Some(state), cooldown, dailyLimit, call);
            && verdict.CoolingDown?
            && var retry := TransactionGuard.GuardCall(call.now + PrintedWait(verdict.wait), later);
               !TransactionGuard.Allow(denied, cooldown, dailyLimit, retry).1.CoolingDown?
               <==> left < SECOND || left % SECOND == 0
  {
    var left := state.last.value + cooldown - call.now;
    assert PrintedWait(left) >= left <==> left < SECOND || left % SECOND == 0;
  }

  /** With a second and a half of the cooldown left, one second is printed, and the retry is denied again. */
  lemma CooldownHeaderFallsShort()
    ensures var state := TransactionGuard.GuardState(Some(0), Some(0), 1);
            var (denied, verdict) := TransactionGuard.Allow(Some(state), 10 * SECOND, 10, TransactionGuard.GuardCall(8_500_000_000, 0));
            && verdict.CoolingDown? && RetryAfterSeconds(verdict.wait) == 1
            && TransactionGuard.Allow(denied, 10 * SECOND, 10, TransactionGuard.GuardCall(9_500_000_000, 0)).1.CoolingDown?
  {
    var state, call := TransactionGuard.GuardState(Some(0), Some(0), 1), TransactionGuard.GuardCall(8_500_000_000, 0);
    CooldownHeaderSufficesIff(state, 10 * SECOND, 10, call, 0);
  }
}
