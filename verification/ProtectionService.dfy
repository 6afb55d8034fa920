/** The protection service object: four stores, driven in order. */
module ProtectionService {
  import opened Clock
  import opened Wrappers
  import opened KeyedStore
  import opened Protection
  import TokenBucket
  import TransactionGuard
  import CircuitBreaker
  import opened IdempotencyCache
  import opened RateLimiter
  import opened GuardStore
  import opened BreakerStore
  import IdempotencyStore

  class Service {
    const cfg: Config
    const rateLimiter: RateLimiterStore
    const transactions: TransactionGuardStore
    const idempotency: IdempotencyStore.Store
    const circuits: CircuitBreakerStore

    ghost function Others(): set<object>
      reads rateLimiter, transactions
    {
      {rateLimiter, transactions, idempotency, circuits} + rateLimiter.buckets.Values + transactions.users.Values
    }

    ghost function Repr(): set<object?>
      reads rateLimiter, transactions, circuits
    {
      Others() + circuits.Owner.Keys
    }

    /** The footprint has grown by new objects only. */
    twostate predicate Grown()
      reads Repr()
    {
      forall o: object :: o in Repr() && o !in old(Repr()) ==> !old(allocated(o))
    }

    ghost predicate Valid()
      reads Repr()
    {
      && rateLimiter.Valid() && transactions.Valid() && circuits.Valid()
      && Others() !! circuits.Owner.Keys
    }

    ghost function View(): State
      reads Repr()
      requires Valid()
    {
      State(rateLimiter.View(), transactions.View(), idempotency.cache, circuits.View())
    }

    constructor (cfg: Config)
      ensures Valid() && fresh(Repr()) && View() == EMPTY && this.cfg == cfg
    {
      this.cfg := cfg;
      rateLimiter := new RateLimiterStore();
      transactions := new TransactionGuardStore();
      idempotency := new IdempotencyStore.Store();
      circuits := new CircuitBreakerStore();
    }

    method LimiterAllows(req: Request, now: Instant) returns (denied: Option<Denial>)
      requires Valid()
      modifies Repr()
      ensures Valid() && Grown()
      ensures (View(), denied) == LimiterStep(cfg, old(View()), req, now)
    {
      hide RateLimiterStore.View, RateLimiterStore.Valid, TransactionGuardStore.View, TransactionGuardStore.Valid;
      hide CircuitBreakerStore.View, CircuitBreakerStore.Valid;
      hide TokenBucket.Allow;
      var limit := cfg.readLimitPerMinute;
      if req.route.routeClass == "transactional" || req.route.transactional {
        limit := cfg.transactionalLimitPerMinute;
      }
      var ok, retryAfter := rateLimiter.Allow(req.user + ":" + req.route.routeClass, limit, now);
      denied := if ok then None else Some(RateLimited(retryAfter));
    }

    method GuardAllows(req: Request, now: Instant, today: int) returns (denied: Option<Denial>)
      requires Valid()
      modifies Repr()
      ensures Valid() && Grown()
      ensures (View(), denied) == GuardStep(cfg, old(View()), req, now, today)
    {
      hide RateLimiterStore.View, RateLimiterStore.Valid, TransactionGuardStore.View, TransactionGuardStore.Valid;
      hide CircuitBreakerStore.View, CircuitBreakerStore.Valid;
      hide TransactionGuard.Allow, Put;
      var verdict := transactions.Allow(req.user, cfg.Cooldown(), cfg.dailyLimit, now, today);
      denied := if verdict.Admitted? then None else Some(GuardDenied(verdict.wait));
    }

    method CircuitAllows(req: Request, now: Instant) returns (denied: Option<Denial>)
      requires Valid()
      modifies Repr()
      ensures Valid() && Grown()
      ensures (View(), denied) == CircuitStep(cfg, old(View()), req, now)
    {
      hide RateLimiterStore.View, RateLimiterStore.Valid, TransactionGuardStore.View, TransactionGuardStore.Valid;
      hide CircuitBreakerStore.View, CircuitBreakerStore.Valid;
      hide CircuitBreaker.Allow;
      var ok := circuits.Allow(req.route.serviceName, cfg.OpenWindow(), now);
      denied := if ok then None else Some(CircuitOpen);
    }

    /** One request's way in: limiter, cache, guard and circuit, stopping at the first that answers. */
    method Before(req: Request, now: Instant, today: int) returns (decision: Decision)
      requires Valid()
      modifies Repr()
      ensures Valid() && Grown()
      ensures (View(), decision) == Protection.Before(cfg, old(View()), req, now, today)
    {
      hide LimiterStep, TransactionStep, CircuitStep, View, Valid, Repr, Others;
      var denied := LimiterAllows(req, now);
      if denied.Some? {
        return Denied(denied.value);
      }
      decision := Forward("", "");
      if req.route.transactional {
        decision := Transaction(req, now, today);
        if !decision.Forward? {
          return;
        }
      }
      denied := CircuitAllows(req, now);
      if denied.Some? {
        return Denied(denied.value);
      }
    }

    method Transaction(req: Request, now: Instant, today: int) returns (decision: Decision)
      requires Valid()
      modifies Repr()
      ensures Valid() && Grown()
      ensures (View(), decision) == TransactionStep(cfg, old(View()), req, now, today)
    {
      hide GuardStep, Answer, AfterGet, View, Valid, Repr, Others;
      if req.idempotencyHeader == "" {
        return Denied(KeyRequired);
      }
      var cached := CachedFor(KeyOf(req), now);
      if cached.Some? {
        if cached.value.bodyHash != BodyHash(req.body) {
          return Denied(KeyConflict);
        }
        return Replay(cached.value);
      }
      var denied := GuardAllows(req, now, today);
      decision := if denied.Some? then Denied(denied.value) else Forward(KeyOf(req), BodyHash(req.body));
    }

    method CachedFor(key: Digest, now: Instant) returns (cached: Option<CachedResponse>)
      requires Valid()
      modifies Repr()
      ensures Valid() && Repr() == old(Repr())
      ensures cached == Answer(old(View()).cache, key, now)
      ensures View() == old(View()).(cache := AfterGet(old(View()).cache, key, now))
    {
      hide RateLimiterStore.View, RateLimiterStore.Valid, TransactionGuardStore.View, TransactionGuardStore.Valid;
      hide CircuitBreakerStore.View, CircuitBreakerStore.Valid, Answer, AfterGet;
      cached := idempotency.Get(key, now);
    }

    method Remember(key: Digest, response: CachedResponse)
      requires Valid()
      modifies Repr()
      ensures Valid() && Repr() == old(Repr())
      ensures View() == old(View()).(cache := old(View()).cache[key := response])
    {
      hide RateLimiterStore.View, RateLimiterStore.Valid, TransactionGuardStore.View, TransactionGuardStore.Valid;
      hide CircuitBreakerStore.View, CircuitBreakerStore.Valid;
      idempotency.Set(key, response);
    }

    method Record(serviceName: string, failed: bool, timeout: bool, now: Instant)
      requires Valid()
      modifies Repr()
      ensures Valid() && Grown()
      ensures View() == RecordStep(old(View()), serviceName, failed, timeout, now)
    {
      hide RateLimiterStore.View, RateLimiterStore.Valid, TransactionGuardStore.View, TransactionGuardStore.Valid;
      hide CircuitBreakerStore.View, CircuitBreakerStore.Valid;
      hide CircuitBreaker.RecordFailure, CircuitBreaker.RecordSuccess;
      if failed {
        circuits.RecordFailure(serviceName, timeout, now);
      } else {
        circuits.RecordSuccess(serviceName);
      }
    }

    /** The way out: the outcome to the breaker, and a successful transactional response to the cache. */
    method After(req: Request, decision: Decision, response: CachedResponse,
                 timeout: bool, transportFailure: bool, now: Instant)
      requires Valid()
      modifies Repr()
      ensures Valid() && Grown()
      ensures View() == Protection.After(cfg, old(View()), req, decision, response, timeout, transportFailure, now)
    {
      hide RecordStep, Stamped, CountsAsFailure, View, Valid, Repr, Others;
      if decision.Replay? {
        return;
      }
      Record(req.route.serviceName, CountsAsFailure(response.status, timeout, transportFailure), timeout, now);
      if decision.Forward? && req.route.transactional && decision.idempotencyKey != "" && Successful(response.status) {
        Remember(decision.idempotencyKey, Stamped(cfg, response, decision.bodyHash, now));
      }
    }
  }
}
