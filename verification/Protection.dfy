/** The protection service: what one request meets before and after the downstream call. */
module Protection {
  import opened Clock
  import opened Wrappers
  import opened KeyedStore
  import TokenBucket
  import TransactionGuard
  import opened IdempotencyCache
  import CircuitBreaker

  datatype Config = Config(
    readLimitPerMinute: int, transactionalLimitPerMinute: int,
    cooldownSeconds: int, dailyLimit: int, ttlHours: int, openSeconds: int)
  {
    function Cooldown(): (d: Duration)
      ensures cooldownSeconds > 0 ==> d == cooldownSeconds * 1_000_000_000
      ensures cooldownSeconds <= 0 ==> d == 10_000_000_000
      ensures d >= SECOND
    {
      (if cooldownSeconds <= 0 then 10 else cooldownSeconds) * SECOND
    }

    function IdempotencyTTL(): (d: Duration)
      ensures ttlHours > 0 ==> d == ttlHours * 3_600_000_000_000
      ensures ttlHours <= 0 ==> d == 86_400_000_000_000
      ensures d >= HOUR
    {
      (if ttlHours <= 0 then 24 else ttlHours) * HOUR
    }

    function OpenWindow(): (d: Duration)
      ensures openSeconds > 0 ==> d == openSeconds * 1_000_000_000
      ensures openSeconds <= 0 ==> d == 60_000_000_000
      ensures d >= SECOND
    {
      (if openSeconds <= 0 then 60 else openSeconds) * SECOND
    }
  }

  datatype Route = Route(serviceName: string, transactional: bool, routeClass: string)

  /** A request as `forward` sees it. `idempotencyHeader` is the trimmed header value, `wellFormed` says whether a
      downstream request can be constructed from the route. */
  datatype Request = Request(
    route: Route, user: string, verb: string, path: string, body: string,
    idempotencyHeader: string, envelope: bool, wellFormed: bool)

  // SHA-256 is taken to be injective, so digests are represented by what they digest.
  type Digest = string

  function CacheKey(verb: string, path: string, user: string, header: string): Digest {
    verb + ":" + path + ":" + user + ":" + header
  }

  function BodyHash(body: string): Digest { body }

  function KeyOf(req: Request): Digest { CacheKey(req.verb, req.path, req.user, req.idempotencyHeader) }

  function LimiterKey(user: string, routeClass: string): string { user + ":" + routeClass }

  function LimitFor(cfg: Config, route: Route): int {
    if route.routeClass == "transactional" || route.transactional
    then cfg.transactionalLimitPerMinute else cfg.readLimitPerMinute
  }

  datatype Denial =
    | RateLimited(wait: Duration)
    | GuardDenied(wait: Duration)
    | KeyRequired
    | KeyConflict
    | CircuitOpen

  datatype Decision =
    | Denied(reason: Denial)
    | Replay(cached: CachedResponse)
    | Forward(idempotencyKey: Digest, bodyHash: Digest)

  datatype State = State(
    limiter: map<string, TokenBucket.Bucket>,
    guard: map<string, TransactionGuard.GuardState>,
    cache: Cache,
    circuits: map<string, CircuitBreaker.Breaker>)

  const EMPTY := State(map[], map[], map[], map[])

  // ---- The steps of `Before`, one per store ----

  function LimiterStep(cfg: Config, s: State, req: Request, now: Instant): (State, Option<Denial>) {
    var key := LimiterKey(req.user, req.route.routeClass);
    var (bucket, ok) := TokenBucket.Allow(Lookup(s.limiter, key), TokenBucket.LimiterCall(LimitFor(cfg, req.route), now));
    var limiter := Put(s.limiter, key, bucket);
    (s.(limiter := limiter),
     if ok || bucket.None? then None else Some(RateLimited(TokenBucket.DenialWait(bucket.value))))
  }

  /** What a lookup under the request's key makes of the request: nothing, a replay or a conflict. */
  function CacheVerdict(s: State, req: Request, now: Instant): Option<Decision> {
    match Answer(s.cache, KeyOf(req), now)
    case None => None
    case Some(cached) => Some(if cached.bodyHash != BodyHash(req.body) then Denied(KeyConflict) else Replay(cached))
  }

  function GuardStep(cfg: Config, s: State, req: Request, now: Instant, today: int): (State, Option<Denial>) {
    var (state, verdict) := TransactionGuard.Allow(
      Lookup(s.guard, req.user), cfg.Cooldown(), cfg.dailyLimit, TransactionGuard.GuardCall(now, today));
    (s.(guard := Put(s.guard, req.user, state)),
     if verdict.Admitted? then None else Some(GuardDenied(verdict.wait)))
  }

  function CircuitStep(cfg: Config, s: State, req: Request, now: Instant): (State, Option<Denial>) {
    var service := req.route.serviceName;
    var (circuit, ok) := CircuitBreaker.Allow(CircuitBreaker.Current(s.circuits, service), cfg.OpenWindow(), now);
    (s.(circuits := s.circuits[service := circuit]), if ok then None else Some(CircuitOpen))
  }

  /** Cache and guard, which only transactional routes meet. */
  function TransactionStep(cfg: Config, s: State, req: Request, now: Instant, today: int): (State, Decision) {
    if req.idempotencyHeader == "" then (s, Denied(KeyRequired))
    else
      var looked := s.(cache := AfterGet(s.cache, KeyOf(req), now));
      match CacheVerdict(s, req, now)
      case Some(decision) => (looked, decision)
      case None =>
        var (s', denied) := GuardStep(cfg, looked, req, now, today);
        (s', if denied.Some? then Denied(denied.value) else Forward(KeyOf(req), BodyHash(req.body)))
  }

  function Before(cfg: Config, s: State, req: Request, now: Instant, today: int): (State, Decision) {
    var (s1, limited) := LimiterStep(cfg, s, req, now);
    if limited.Some? then (s1, Denied(limited.value))
    else
      var (s2, decision) :=
        if req.route.transactional then TransactionStep(cfg, s1, req, now, today) else (s1, Forward("", ""));
      if !decision.Forward? then (s2, decision)
      else
        var (s3, denied) := CircuitStep(cfg, s2, req, now);
        (s3, if denied.Some? then Denied(denied.value) else decision)
  }

  // ---- The steps of `After` ----

  predicate CountsAsFailure(status: int, timeout: bool, transportFailure: bool) {
    timeout || transportFailure || status >= 500
  }

  predicate Successful(status: int) { 200 <= status < 300 }

  function RecordStep(s: State, service: string, failed: bool, timeout: bool, now: Instant): State {
    var circuit := CircuitBreaker.Current(s.circuits, service);
    s.(circuits := s.circuits[service :=
      if failed then CircuitBreaker.RecordFailure(circuit, timeout, now) else CircuitBreaker.RecordSuccess(circuit)])
  }

  /** What is stored under the request's key: the response, stamped with the body digest and the expiry. */
  function Stamped(cfg: Config, response: CachedResponse, bodyHash: Digest, now: Instant): CachedResponse {
    response.(bodyHash := bodyHash, expiresAt := now + cfg.IdempotencyTTL())
  }

  predicate Stores(req: Request, key: Digest, response: CachedResponse) {
    req.route.transactional && key != "" && Successful(response.status)
  }

  function StoreStep(cfg: Config, s: State, key: Digest, bodyHash: Digest, response: CachedResponse, now: Instant): State {
    s.(cache := s.cache[key := Stamped(cfg, response, bodyHash, now)])
  }

  /** Only a replay is exempt. A denial has no key to store under, but its outcome would be recorded; the handler never
      gets there with one. */
  function After(cfg: Config, s: State, req: Request, decision: Decision, response: CachedResponse,
                 timeout: bool, transportFailure: bool, now: Instant): State
  {
    match decision
    case Replay(_) => s
    case Denied(_) => RecordStep(s, req.route.serviceName, CountsAsFailure(response.status, timeout, transportFailure), timeout, now)
    case Forward(key, bodyHash) =>
      var failed := CountsAsFailure(response.status, timeout, transportFailure);
      var s1 := RecordStep(s, req.route.serviceName, failed, timeout, now);
      if Stores(req, key, response) then StoreStep(cfg, s1, key, bodyHash, response, now) else s1
  }
}
