/** Cache, guard and handler timing together: no two requests with the same key both store a success within one TTL. */
module ExactlyOnce {
  import opened Clock
  import opened Wrappers
  import opened KeyedStore
  import opened Protection
  import opened IdempotencyCache
  import opened Routing
  import opened Gateway
  import TransactionGuard
  import Keys

  // ---- The side conditions of a run ----

  /** Method, path and user hold no separator, so the cache key is the request's own. */
  predicate ColonFree(req: Request) { ':' !in req.verb && ':' !in req.path && ':' !in req.user }

  /** A response is stored in under the bound after its request arrived. */
  predicate StoresInTime(bound: Duration, s: System, id: nat)
    requires id in s.flights
  {
    s.flights[id].phase.Storing? ==> s.clock < s.flights[id].now + bound
  }

  /** A lookup's delete finds nothing newer than the expired entry it was meant for. */
  predicate EvictsExpired(s: System, id: nat)
    requires id in s.flights
  {
    var f := s.flights[id];
    var key := KeyOf(f.req);
    f.phase.Evicting? && key in s.store.cache ==> Expired(s.store.cache[key], f.now)
  }

  predicate PromptStep(bound: Duration, s: System, step: Step) {
    match step
    case Arrive(_, req, _) => ColonFree(req)
    case Move(id, _) => id in s.flights ==> StoresInTime(bound, s, id)
    case Tick(_) => true
    case Cleanup(_) => true
  }

  /** Responses are stored in under the bound. */
  predicate PromptRun(cfg: Config, bound: Duration, s: System, steps: seq<Step>)
    decreases steps
  {
    steps != [] ==> PromptStep(bound, s, steps[0]) && PromptRun(cfg, bound, Next(cfg, s, steps[0]), steps[1..])
  }

  /** Lookups delete only expired entries. */
  predicate CleanRun(cfg: Config, s: System, steps: seq<Step>)
    decreases steps
  {
    steps != [] ==>
      && (steps[0].Move? && steps[0].id in s.flights ==> EvictsExpired(s, steps[0].id))
      && CleanRun(cfg, Next(cfg, s, steps[0]), steps[1..])
  }

  predicate SameRequest(r: Request, r': Request) {
    r.verb == r'.verb && r.path == r'.path && r.user == r'.user && r.idempotencyHeader == r'.idempotencyHeader
  }

  /** Two responses stored for the same method, path, user and idempotency key are more than a TTL apart. */
  ghost predicate OncePerTTL(cfg: Config, log: seq<Stored>) {
    forall i, j :: 0 <= i < j < |log| && SameRequest(log[i].req, log[j].req) ==> log[j].at > log[i].at + cfg.IdempotencyTTL()
  }

  // ---- The invariant ----

  /** Between the guard's admission and the end of the request. */
  predicate InFlight(f: Flight) {
    f.req.route.transactional && (f.phase.Cleared? || f.phase.Admitted? || f.phase.Reporting? || f.phase.Storing?)
  }

  /** The time from which the flight's own stored response would date. */
  function Reference(s: System, f: Flight): Instant {
    if f.phase.Reporting? || f.phase.Storing? then f.phase.at else s.clock
  }

  predicate Sane(s: System, f: Flight) {
    && f.now <= s.clock && Reference(s, f) <= s.clock
    && (f.phase.Storing? ==> f.req.route.transactional)
  }

  predicate NotTogether(cfg: Config, f: Flight, g: Flight) {
    InFlight(f) && InFlight(g) && f.req.user == g.req.user ==> Apart(cfg, f.now, g.now)
  }

  predicate GuardReached(s: System, user: string, t: Instant) {
    user in s.store.guard && s.store.guard[user].last.Some? && t <= s.store.guard[user].last.value
  }

  /** When the response logged as e stops being replayed. */
  function Expiry(cfg: Config, e: Stored): Instant { e.at + cfg.IdempotencyTTL() }

  /** The cache still covers e, or e has expired. */
  predicate Covers(cfg: Config, s: System, e: Stored) {
    || Expiry(cfg, e) < s.clock
    || (KeyOf(e.req) in s.store.cache && Expiry(cfg, e) <= s.store.cache[KeyOf(e.req)].expiresAt)
  }

  /** A flight past its lookup does not threaten e: e has expired, or the guard will deny the flight, or the flight is too
      late to store. */
  predicate Harmless(cfg: Config, s: System, f: Flight, e: Stored) {
    KeyOf(f.req) == KeyOf(e.req) ==>
      && (f.phase.Missed? ==> Expiry(cfg, e) < s.clock || f.now < e.start + cfg.Cooldown())
      && (InFlight(f) ==> Expiry(cfg, e) < Reference(s, f) || f.now + cfg.Cooldown() <= s.clock)
  }

  ghost predicate Flights(cfg: Config, s: System) {
    && (forall id :: id in s.flights ==> ColonFree(s.flights[id].req) && Sane(s, s.flights[id]))
    && GuardedFlights(cfg, s)
  }

  ghost predicate GuardedFlights(cfg: Config, s: System) {
    && (forall id :: id in s.flights && InFlight(s.flights[id]) ==>
          GuardReached(s, s.flights[id].req.user, s.flights[id].now))
    && (forall i, j :: i in s.flights && j in s.flights && i != j ==> NotTogether(cfg, s.flights[i], s.flights[j]))
  }

  ghost predicate Log(cfg: Config, s: System) {
    && (forall k :: 0 <= k < |s.log| ==>
          ColonFree(s.log[k].req) && GuardReached(s, s.log[k].req.user, s.log[k].start) && Covers(cfg, s, s.log[k]))
    && (forall id, k :: id in s.flights && 0 <= k < |s.log| ==> Harmless(cfg, s, s.flights[id], s.log[k]))
  }

  /** No response was stored before an earlier one under its key had expired. */
  ghost predicate Exclusive(cfg: Config, log: seq<Stored>) {
    forall i, j :: 0 <= i < j < |log| && KeyOf(log[i].req) == KeyOf(log[j].req) ==> Expiry(cfg, log[i]) < log[j].at
  }

  ghost predicate Inv(cfg: Config, s: System) { Flights(cfg, s) && Log(cfg, s) && Exclusive(cfg, s.log) }

  // ---- Preservation, phase by phase ----

  /** One flight moved on without entering the guarded stretch or losing its reference time; guard, cache and log are as
      they were. */
  lemma QuietMove(cfg: Config, s: System, s': System, id: nat, phase: Phase)
    requires Inv(cfg, s) && id in s.flights
    requires s'.clock == s.clock && s'.log == s.log && s'.store.guard == s.store.guard && s'.store.cache == s.store.cache
    requires s'.flights == s.flights[id := s.flights[id].(phase := phase)]
    requires !phase.Missed? && Sane(s', s'.flights[id])
    requires InFlight(s'.flights[id]) ==> InFlight(s.flights[id]) && Reference(s', s'.flights[id]) == Reference(s, s.flights[id])
    ensures Inv(cfg, s')
  {
    hide KeyOf, ColonFree, Apart, Expiry;
    var f, f' := s.flights[id], s'.flights[id];
    forall other | other in s'.flights ensures NotTogether(cfg, f', s'.flights[other]) || other == id
    {
      assert other != id ==> NotTogether(cfg, f, s.flights[other]) && NotTogether(cfg, s.flights[other], f);
    }
    forall k | 0 <= k < |s'.log| ensures Harmless(cfg, s', f', s'.log[k]) && Covers(cfg, s', s'.log[k]) {
      assert Harmless(cfg, s, f, s.log[k]) && Covers(cfg, s, s.log[k]);
    }
    assert Log(cfg, s') by {
      forall i, k | i in s'.flights && 0 <= k < |s'.log| ensures Harmless(cfg, s', s'.flights[i], s'.log[k]) {
        assert i != id ==> Harmless(cfg, s, s.flights[i], s.log[k]);
      }
    }
  }

  /** A lookup that ends without an answer: whatever was stored under the key has expired. */
  lemma MissMove(cfg: Config, s: System, s': System, id: nat)
    requires Inv(cfg, s) && id in s.flights
    requires var key := KeyOf(s.flights[id].req);
             && (key in s.store.cache ==> Expired(s.store.cache[key], s.flights[id].now))
             && s' == SetPhase(s.(store := s.store.(cache := s.store.cache - {key})), id, Missed)
    ensures Inv(cfg, s')
  {
    hide KeyOf, ColonFree, Apart, Expiry;
    var f, f' := s.flights[id], s'.flights[id];
    forall k | 0 <= k < |s.log|
      ensures Covers(cfg, s', s.log[k]) && (KeyOf(f.req) == KeyOf(s.log[k].req) ==> Expiry(cfg, s.log[k]) < s.clock)
    {
      assert Covers(cfg, s, s.log[k]) && Sane(s, f);
    }
    forall i, k | i in s'.flights && 0 <= k < |s'.log| ensures Harmless(cfg, s', s'.flights[i], s'.log[k]) {
      assert i != id ==> Harmless(cfg, s, s.flights[i], s.log[k]);
    }
    forall i, j | i in s'.flights && j in s'.flights && i != j ensures NotTogether(cfg, s'.flights[i], s'.flights[j]) {
      assert NotTogether(cfg, s.flights[i], s.flights[j]);
    }
  }

  /** What one guard call does to the times it has reached. */
  lemma GuardFacts(cfg: Config, s: System, f: Flight, user: string, t: Instant)
    requires GuardReached(s, user, t)
    ensures var (store, denied) := GuardStep(cfg, s.store, f.req, f.now, f.today);
            && GuardReached(s.(store := store), user, t)
            && (denied.None? && f.req.user == user ==> t + cfg.Cooldown() <= f.now)
  {
    hide TransactionGuard.EffectiveLimit;
  }

  lemma GuardReachesAdmitted(cfg: Config, s: System, f: Flight)
    ensures var (store, denied) := GuardStep(cfg, s.store, f.req, f.now, f.today);
            && store == s.store.(guard := store.guard)
            && (denied.None? ==> GuardReached(s.(store := store), f.req.user, f.now))
  {
  }

  lemma SameGuard(s: System, s': System, user: string, t: Instant)
    requires s.store.guard == s'.store.guard
    ensures GuardReached(s, user, t) <==> GuardReached(s', user, t)
  {
  }

  /** Requests without a separator in method, path and user share a cache key exactly if they agree in all four parts. */
  lemma SameKeyIff(req: Request, req': Request)
    requires ColonFree(req) && ColonFree(req')
    ensures KeyOf(req) == KeyOf(req') <==> SameRequest(req, req')
  {
    if KeyOf(req) == KeyOf(req') {
      Keys.CacheKeyIsInjective(req.verb, req.path, req.user, req.idempotencyHeader,
                               req'.verb, req'.path, req'.user, req'.idempotencyHeader);
    }
  }

  lemma SameKeySameUser(req: Request, req': Request)
    requires ColonFree(req) && ColonFree(req') && KeyOf(req) == KeyOf(req')
    ensures req.user == req'.user
  {
    SameKeyIff(req, req');
  }

  lemma GuardKeepsFlights(cfg: Config, s: System, id: nat)
    requires Inv(cfg, s) && id in s.flights && s.flights[id].phase.Missed?
    ensures GuardedFlights(cfg, Guard(cfg, s, id))
  {
    hide KeyOf, ColonFree, Expiry, GuardStep, GuardReached, Log;
    var f, s' := s.flights[id], Guard(cfg, s, id);
    var (store, denied) := GuardStep(cfg, s.store, f.req, f.now, f.today);
    assert s'.store == store;
    var f' := s'.flights[id];
    assert InFlight(f') ==> denied.None?;
    GuardReachesAdmitted(cfg, s, f);
    SameGuard(s', s.(store := s'.store), f.req.user, f.now);
    forall i | i in s'.flights && InFlight(s'.flights[i])
      ensures GuardReached(s', s'.flights[i].req.user, s'.flights[i].now)
      ensures i != id ==> NotTogether(cfg, f', s'.flights[i]) && NotTogether(cfg, s'.flights[i], f')
    {
      if i != id {
        GuardFacts(cfg, s, f, s.flights[i].req.user, s.flights[i].now);
        SameGuard(s', s.(store := s'.store), s.flights[i].req.user, s.flights[i].now);
      }
    }
    forall i, j | i in s'.flights && j in s'.flights && i != j ensures NotTogether(cfg, s'.flights[i], s'.flights[j]) {
      assert i != id && j != id ==> NotTogether(cfg, s.flights[i], s.flights[j]);
    }
  }

  /** The guard's admission: spaced from every flight of the user still under way, and from everything stored. */
  lemma GuardMove(cfg: Config, s: System, id: nat)
    requires Inv(cfg, s) && id in s.flights && s.flights[id].phase.Missed?
    ensures Inv(cfg, Guard(cfg, s, id))
  {
    hide KeyOf, ColonFree, Apart, Expiry, GuardStep, GuardReached;
    var f, s' := s.flights[id], Guard(cfg, s, id);
    var (store, denied) := GuardStep(cfg, s.store, f.req, f.now, f.today);
    assert s'.store == store;
    var f' := s'.flights[id];
    assert InFlight(f') ==> denied.None?;
    GuardReachesAdmitted(cfg, s, f);
    assert s'.store.cache == s.store.cache && s'.log == s.log && s'.clock == s.clock;
    assert GuardedFlights(cfg, s') by { GuardKeepsFlights(cfg, s, id); }
    forall k | 0 <= k < |s.log|
      ensures GuardReached(s', s.log[k].req.user, s.log[k].start) && Covers(cfg, s', s.log[k])
    {
      GuardFacts(cfg, s, f, s.log[k].req.user, s.log[k].start);
      assert Covers(cfg, s, s.log[k]);
      SameGuard(s', s.(store := s'.store), s.log[k].req.user, s.log[k].start);
    }
    forall i, k | i in s'.flights && 0 <= k < |s'.log| ensures Harmless(cfg, s', s'.flights[i], s'.log[k]) {
      assert Harmless(cfg, s, s.flights[i], s.log[k]);
      if i == id && KeyOf(f.req) == KeyOf(s.log[k].req) && InFlight(f') {
        SameKeySameUser(f.req, s.log[k].req);
        GuardFacts(cfg, s, f, s.log[k].req.user, s.log[k].start);
      }
    }
  }

  /** Storing in time: nobody else with the user is under way in time, and what was stored under the key has expired. */
  lemma KeepMove(cfg: Config, s: System, id: nat)
    requires Inv(cfg, s) && id in s.flights && s.flights[id].phase.Storing? && StoresInTime(cfg.Cooldown(), s, id)
    ensures Inv(cfg, Keep(cfg, s, id))
  {
    hide KeyOf, ColonFree, GuardReached;
    var f, s', n := s.flights[id], Keep(cfg, s, id), |s.log|;
    var f', e := s'.flights[id], s'.log[n];
    assert e.req == f.req && e.start == f.now && e.at == f.phase.at;
    forall k | 0 <= k < n
      ensures GuardReached(s', s.log[k].req.user, s.log[k].start) && Covers(cfg, s', s.log[k])
      ensures KeyOf(s.log[k].req) == KeyOf(e.req) ==> Expiry(cfg, s.log[k]) < e.at
    {
      assert Covers(cfg, s, s.log[k]) && Harmless(cfg, s, f, s.log[k]);
      SameGuard(s, s', s.log[k].req.user, s.log[k].start);
    }
    SameGuard(s, s', f.req.user, f.now);
    assert Covers(cfg, s', e);
    forall i, k | i in s'.flights && 0 <= k < |s'.log| ensures Harmless(cfg, s', s'.flights[i], s'.log[k]) {
      if k < n {
        assert Harmless(cfg, s, s.flights[i], s.log[k]);
      } else if i != id {
        NewEntryHarmless(cfg, s, id, i, e);
      }
    }
    assert Flights(cfg, s') by { KeepKeepsFlights(cfg, s, id); }
  }

  lemma KeepKeepsFlights(cfg: Config, s: System, id: nat)
    requires Flights(cfg, s) && id in s.flights && s.flights[id].phase.Storing?
    ensures Flights(cfg, Keep(cfg, s, id))
  {
    hide KeyOf, ColonFree, GuardReached, Apart, StoreStep, EntryOf;
    var s' := Keep(cfg, s, id);
    assert s'.store.guard == s.store.guard by { KeepKeepsGuard(cfg, s, id); }
    forall i | i in s'.flights
      ensures InFlight(s'.flights[i]) ==> GuardReached(s', s'.flights[i].req.user, s'.flights[i].now)
    {
      SameGuard(s, s', s.flights[i].req.user, s.flights[i].now);
    }
    forall i, j | i in s'.flights && j in s'.flights && i != j ensures NotTogether(cfg, s'.flights[i], s'.flights[j]) {
      assert NotTogether(cfg, s.flights[i], s.flights[j]);
    }
  }

  lemma KeepKeepsGuard(cfg: Config, s: System, id: nat)
    requires id in s.flights && s.flights[id].phase.Storing?
    ensures Keep(cfg, s, id).store.guard == s.store.guard
  {
  }

  lemma NewEntryHarmless(cfg: Config, s: System, id: nat, other: nat, e: Stored)
    requires Inv(cfg, s) && id in s.flights && other in s.flights && other != id
    requires s.flights[id].phase.Storing? && StoresInTime(cfg.Cooldown(), s, id)
    requires e.req == s.flights[id].req && e.start == s.flights[id].now
    ensures Harmless(cfg, s, s.flights[other], e)
  {
    hide KeyOf, ColonFree, GuardReached, Log;
    var f, g := s.flights[id], s.flights[other];
    assert Sane(s, f) && Sane(s, g) && NotTogether(cfg, f, g);
    if KeyOf(g.req) == KeyOf(e.req) { SameKeySameUser(g.req, f.req); }
  }

  lemma TickStep(cfg: Config, s: System, t: Instant)
    requires Inv(cfg, s)
    ensures Inv(cfg, Next(cfg, s, Tick(t)))
  {
    hide KeyOf, ColonFree, Apart, Expiry;
    var s' := Next(cfg, s, Tick(t));
    forall k | 0 <= k < |s.log| ensures Covers(cfg, s', s.log[k]) {
      assert Covers(cfg, s, s.log[k]);
    }
    forall i, k | i in s'.flights && 0 <= k < |s'.log| ensures Harmless(cfg, s', s'.flights[i], s'.log[k]) {
      assert Harmless(cfg, s, s.flights[i], s.log[k]);
    }
  }

  lemma CleanupStep(cfg: Config, s: System, at: Instant)
    requires Inv(cfg, s)
    ensures Inv(cfg, Next(cfg, s, Cleanup(at)))
  {
    hide KeyOf, ColonFree, Apart, Expiry;
    var s' := Next(cfg, s, Cleanup(at));
    forall k | 0 <= k < |s.log| ensures Covers(cfg, s', s.log[k]) {
      assert Covers(cfg, s, s.log[k]);
    }
    forall i, k | i in s'.flights && 0 <= k < |s'.log| ensures Harmless(cfg, s', s'.flights[i], s'.log[k]) {
      assert Harmless(cfg, s, s.flights[i], s.log[k]);
    }
  }

  lemma ArriveStep(cfg: Config, s: System, id: nat, req: Request, today: int)
    requires Inv(cfg, s) && ColonFree(req)
    ensures Inv(cfg, Next(cfg, s, Arrive(id, req, today)))
  {
    hide KeyOf, ColonFree, Apart, Expiry;
    var s' := Next(cfg, s, Arrive(id, req, today));
    if id in s.flights { return; }
    assert s' == s.(flights := s.flights[id := Flight(req, s.clock, today, Arrived)]);
    hide Next;
    forall k | 0 <= k < |s.log|
      ensures Covers(cfg, s', s.log[k]) && GuardReached(s', s.log[k].req.user, s.log[k].start)
    {
      assert Covers(cfg, s, s.log[k]) && GuardReached(s, s.log[k].req.user, s.log[k].start);
    }
    hide GuardReached;
    forall i | i in s'.flights ensures ColonFree(s'.flights[i].req) && Sane(s', s'.flights[i])
      ensures InFlight(s'.flights[i]) ==> GuardReached(s', s'.flights[i].req.user, s'.flights[i].now)
    {
      if i != id { SameGuard(s, s', s.flights[i].req.user, s.flights[i].now); }
    }
    forall i, k | i in s'.flights && 0 <= k < |s'.log| ensures Harmless(cfg, s', s'.flights[i], s'.log[k]) {
      assert i != id ==> Harmless(cfg, s, s.flights[i], s.log[k]);
    }
    forall i, j | i in s'.flights && j in s'.flights && i != j ensures NotTogether(cfg, s'.flights[i], s'.flights[j]) {
      assert i != id && j != id ==> NotTogether(cfg, s.flights[i], s.flights[j]);
    }
  }

  lemma MoveStep(cfg: Config, s: System, id: nat, outcome: Downstream)
    requires Inv(cfg, s) && id in s.flights && StoresInTime(cfg.Cooldown(), s, id) && EvictsExpired(s, id)
    ensures Inv(cfg, Advance(cfg, s, id, outcome))
  {
    hide Inv, KeyOf, LimiterStep, GuardStep, CircuitStep, RecordStep, Stores, ReportOf;
    var f, s' := s.flights[id], Advance(cfg, s, id, outcome);
    SaneFlight(cfg, s, id);
    StepsKeepOthers(cfg, s, f);
    match f.phase {
      case Arrived => QuietMove(cfg, s, s', id, s'.flights[id].phase);
      case Looking =>
        if s'.flights[id].phase.Missed? {
          assert s.store == s.store.(cache := s.store.cache - {KeyOf(f.req)});
          MissMove(cfg, s, s', id);
        } else {
          QuietMove(cfg, s, s', id, s'.flights[id].phase);
        }
      case Evicting => MissMove(cfg, s, s', id);
      case Missed => GuardMove(cfg, s, id);
      case Cleared => QuietMove(cfg, s, s', id, s'.flights[id].phase);
      case Admitted => QuietMove(cfg, s, s', id, s'.flights[id].phase);
      case Reporting(_, _) => QuietMove(cfg, s, s', id, s'.flights[id].phase);
      case Storing(_, _) => KeepMove(cfg, s, id);
      case Done(_) =>
    }
  }

  lemma SaneFlight(cfg: Config, s: System, id: nat)
    requires Inv(cfg, s) && id in s.flights
    ensures Sane(s, s.flights[id])
  {
  }

  /** Limiter, circuit and recording steps touch neither guard nor cache; only transactional requests store. */
  lemma StepsKeepOthers(cfg: Config, s: System, f: Flight)
    ensures var s1 := LimiterStep(cfg, s.store, f.req, f.now).0; s1.guard == s.store.guard && s1.cache == s.store.cache
    ensures var s1 := CircuitStep(cfg, s.store, f.req, f.now).0; s1.guard == s.store.guard && s1.cache == s.store.cache
    ensures f.phase.Reporting? ==>
      var response := f.phase.report.response;
      && (Stores(f.req, KeyOf(f.req), response) ==> f.req.route.transactional)
      && forall failed :: var s1 := RecordStep(s.store, f.req.route.serviceName, failed, f.phase.report.timeout, f.phase.at);
                          s1.guard == s.store.guard && s1.cache == s.store.cache
  {
  }

  lemma {:induction false} InvariantHolds(cfg: Config, bound: Duration, s: System, steps: seq<Step>)
    requires Inv(cfg, s) && bound <= cfg.Cooldown() && PromptRun(cfg, bound, s, steps) && CleanRun(cfg, s, steps)
    ensures Inv(cfg, Execute(cfg, s, steps))
    decreases steps
  {
    hide Inv;
    if steps != [] {
      match steps[0] {
        case Tick(t) => TickStep(cfg, s, t);
        case Cleanup(at) => CleanupStep(cfg, s, at);
        case Arrive(id, req, today) => ArriveStep(cfg, s, id, req, today);
        case Move(id, outcome) => if id in s.flights { MoveStep(cfg, s, id, outcome); }
      }
      InvariantHolds(cfg, bound, Next(cfg, s, steps[0]), steps[1..]);
    }
  }

  /** Exactly once: in every interleaving from the start in which responses are stored in under the cooldown and lookups
      delete only expired entries, two responses stored for the same method, path, user and idempotency key are more than a
      TTL apart. */
  lemma ExactlyOncePerTTL(cfg: Config, bound: Duration, start: Instant, steps: seq<Step>)
    requires bound <= cfg.Cooldown() && PromptRun(cfg, bound, Initial(start), steps) && CleanRun(cfg, Initial(start), steps)
    ensures OncePerTTL(cfg, Execute(cfg, Initial(start), steps).log)
  {
    InvariantHolds(cfg, bound, Initial(start), steps);
  }
}
