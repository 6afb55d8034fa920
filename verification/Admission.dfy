/** Which requests are forwarded, and what a refusal costs: the four stores seen from outside `Before`. */
module Admission {
  import opened Clock
  import opened Wrappers
  import opened KeyedStore
  import opened Protection
  import opened IdempotencyCache
  import TokenBucket
  import TransactionGuard
  import CircuitBreaker

  // What each store would answer, asked alone in the state before the request.

  /** The limit of the request's class, per minute: transactional by class or by flag, or read. */
  function LimitInForce(cfg: Config, route: Route): int {
    if route.transactional then cfg.transactionalLimitPerMinute
    else if route.routeClass == "transactional" then cfg.transactionalLimitPerMinute
    else cfg.readLimitPerMinute
  }

  function LimiterAnswer(cfg: Config, s: State, req: Request, now: Instant): (Option<TokenBucket.Bucket>, bool) {
    TokenBucket.Allow(Lookup(s.limiter, req.user + ":" + req.route.routeClass),
                      TokenBucket.LimiterCall(LimitInForce(cfg, req.route), now))
  }

  /** A refusing limiter has a bucket. */
  lemma RefusalHasBucket(cfg: Config, s: State, req: Request, now: Instant)
    ensures !LimiterAdmits(cfg, s, req, now) ==> LimiterAnswer(cfg, s, req, now).0.Some?
  {
  }

  predicate LimiterAdmits(cfg: Config, s: State, req: Request, now: Instant) { LimiterAnswer(cfg, s, req, now).1 }

  predicate GuardAdmits(cfg: Config, s: State, req: Request, now: Instant, today: int) {
    TransactionGuard.Allow(Lookup(s.guard, req.user), cfg.Cooldown(), cfg.dailyLimit,
                           TransactionGuard.GuardCall(now, today)).1.Admitted?
  }

  predicate CircuitAdmits(cfg: Config, s: State, req: Request, now: Instant) {
    CircuitBreaker.Allow(CircuitBreaker.Current(s.circuits, req.route.serviceName), cfg.OpenWindow(), now).1
  }

  /** A request is forwarded if and only if every store it meets, asked alone, would admit it. */
  lemma ForwardedIff(cfg: Config, s: State, req: Request, now: Instant, today: int)
    ensures Before(cfg, s, req, now, today).1.Forward? <==>
      && LimiterAdmits(cfg, s, req, now)
      && (req.route.transactional ==>
            && req.idempotencyHeader != "" && Answer(s.cache, KeyOf(req), now) == None
            && GuardAdmits(cfg, s, req, now, today))
      && CircuitAdmits(cfg, s, req, now)
  {
    RefusalHasBucket(cfg, s, req, now);
    hide KeyOf, TransactionGuard.Allow, CircuitBreaker.Allow, TokenBucket.Allow;
  }

  /** A denied or replayed request leaves no trace behind the store that stopped it. */
  lemma StoppedLeavesRestAlone(cfg: Config, s: State, req: Request, now: Instant, today: int)
    ensures var (s', decision) := Before(cfg, s, req, now, today);
            && (decision.Replay? ==> s' == s.(limiter := s'.limiter))
            && (decision.Denied? && !decision.reason.GuardDenied? && !decision.reason.CircuitOpen? ==>
                  s' == s.(limiter := s'.limiter))
            && (decision.Denied? && decision.reason.GuardDenied? ==> s'.circuits == s.circuits)
  {
    RefusalHasBucket(cfg, s, req, now);
    hide KeyOf, LimiterKey, TokenBucket.Allow, TransactionGuard.Allow, CircuitBreaker.Allow;
  }

  /** A transaction the circuit refuses has already been admitted by the guard: it takes one of the day's slots and starts
      the cooldown, exactly as a forwarded one. */
  lemma CircuitRefusalUsesSlot(cfg: Config, s: State, req: Request, now: Instant, today: int)
    requires req.route.transactional
    requires Before(cfg, s, req, now, today).1 == Denied(CircuitOpen) || Before(cfg, s, req, now, today).1.Forward?
    ensures var guard' := Before(cfg, s, req, now, today).0.guard;
            var earlier := if req.user in s.guard && s.guard[req.user].day == Some(today) then s.guard[req.user].count else 0;
            guard' == s.guard[req.user := TransactionGuard.GuardState(Some(now), Some(today), earlier + 1)]
  {
    RefusalHasBucket(cfg, s, req, now);
    hide KeyOf, LimiterKey, TokenBucket.Allow, CircuitBreaker.Allow, TransactionGuard.EffectiveLimit;
  }

  // ---- Which answer, exactly ----

  /** The limiter answers first, and nothing else refuses with its wait. */
  lemma RateLimitedIff(cfg: Config, s: State, req: Request, now: Instant, today: int, wait: Duration)
    ensures Before(cfg, s, req, now, today).1 == Denied(RateLimited(wait)) <==>
      !LimiterAdmits(cfg, s, req, now) && wait == TokenBucket.DenialWait(LimiterAnswer(cfg, s, req, now).0.value)
  {
    hide KeyOf, TransactionGuard.Allow, CircuitBreaker.Allow;
  }

  /** A transactional request that the limiter admits is refused for want of a key exactly if it has none, gets an unexpired
      answer under its key exactly if that was given to the same body, and a conflict exactly if to another. */
  lemma CacheAnswersIff(cfg: Config, s: State, req: Request, now: Instant, today: int, cached: CachedResponse)
    requires req.route.transactional && LimiterAdmits(cfg, s, req, now)
    ensures var decision, found := Before(cfg, s, req, now, today).1, Answer(s.cache, KeyOf(req), now);
            && (decision == Denied(KeyRequired) <==> req.idempotencyHeader == "")
            && (decision == Replay(cached) <==>
                  req.idempotencyHeader != "" && found == Some(cached) && cached.bodyHash == BodyHash(req.body))
            && (decision == Denied(KeyConflict) <==>
                  req.idempotencyHeader != "" && found.Some? && found.value.bodyHash != BodyHash(req.body))
  {
    RefusalHasBucket(cfg, s, req, now);
    hide KeyOf, BodyHash, Answer, AfterGet, TokenBucket.Allow, TransactionGuard.Allow, CircuitBreaker.Allow;
  }

  /** Requests without the transactional flag meet neither cache nor guard. */
  lemma ReadsMeetNoGuard(cfg: Config, s: State, req: Request, now: Instant, today: int)
    requires !req.route.transactional && LimiterAdmits(cfg, s, req, now)
    ensures var (s', decision) := Before(cfg, s, req, now, today);
            && s'.guard == s.guard && s'.cache == s.cache
            && decision == if CircuitAdmits(cfg, s, req, now) then Forward("", "") else Denied(CircuitOpen)
  {
    RefusalHasBucket(cfg, s, req, now);
    hide KeyOf, TokenBucket.Allow, TransactionGuard.Allow, CircuitBreaker.Allow;
  }

  /** The guard refuses exactly when the lookup had no answer and the guard, asked alone, would not admit; the wait is what
      is left of the cooldown, or an hour when the day is full. */
  lemma GuardDeniedIff(cfg: Config, s: State, req: Request, now: Instant, today: int, wait: Duration)
    ensures Before(cfg, s, req, now, today).1 == Denied(GuardDenied(wait)) <==>
      && req.route.transactional && LimiterAdmits(cfg, s, req, now)
      && req.idempotencyHeader != "" && Answer(s.cache, KeyOf(req), now) == None
      && !GuardAdmits(cfg, s, req, now, today) && wait == GuardWait(cfg, s, req.user, now)
  {
    RefusalHasBucket(cfg, s, req, now);
    hide KeyOf, Answer, AfterGet, TokenBucket.Allow, CircuitBreaker.Allow, TransactionGuard.EffectiveLimit;
  }

  function GuardWait(cfg: Config, s: State, user: string, now: Instant): Duration {
    if user in s.guard && s.guard[user].last.Some? && s.guard[user].last.value + cfg.Cooldown() > now
    then s.guard[user].last.value + cfg.Cooldown() - now
    else 3600 * 1_000_000_000
  }

  /** The circuit refuses exactly what all the others admit. */
  lemma CircuitOpenIff(cfg: Config, s: State, req: Request, now: Instant, today: int)
    ensures Before(cfg, s, req, now, today).1 == Denied(CircuitOpen) <==>
      && LimiterAdmits(cfg, s, req, now)
      && (req.route.transactional ==>
            && req.idempotencyHeader != "" && Answer(s.cache, KeyOf(req), now) == None
            && GuardAdmits(cfg, s, req, now, today))
      && !CircuitAdmits(cfg, s, req, now)
  {
    RefusalHasBucket(cfg, s, req, now);
    hide KeyOf, Answer, AfterGet, TokenBucket.Allow, TransactionGuard.Allow, CircuitBreaker.Allow;
  }
}
