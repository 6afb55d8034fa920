/** How far exactly-once goes: the runs in which a transaction repeats, for every configuration, and so the exact
    conditions under which none does. */
module Repeats {
  import opened Clock
  import opened Wrappers
  import opened KeyedStore
  import opened Protection
  import opened IdempotencyCache
  import opened Routing
  import opened Gateway
  import opened ExactlyOnce
  import opened Sequential
  import LateDeletes
  import Keys
  import TokenBucket
  import TransactionGuard
  import CircuitBreaker

  const MINUTE: Duration := 60_000_000_000
  const PAID: Downstream := Replied(200, [], "x", "x", Some("y"))
  const KEY: Digest := CacheKey("POST", "/p", "u", "k")

  /** One and the same transaction, on a route of either class. */
  function Checkout(routeClass: string): Request {
    Request(Route("m", true, routeClass), "u", "POST", "/p", "b", "k", false, true)
  }

  function Entry(cfg: Config, at: Instant): CachedResponse { Stamped(cfg, Response(200, JSON, "y"), "b", at) }

  // ---- Stores that would admit the next checkout ----

  /** The limiter was last used by time `tl`, the guard by time `tg` and date `d`, and the circuit is closed. */
  predicate Calm(s: State, tl: Instant, tg: Instant, d: int) {
    && (forall key :: key in s.limiter ==> s.limiter[key].tokens >= 0 && s.limiter[key].lastRefill <= tl)
    && ("u" in s.guard ==>
          && (s.guard["u"].last.Some? ==> s.guard["u"].last.value <= tg)
          && (s.guard["u"].day.Some? ==> s.guard["u"].day.value <= d))
    && ("m" in s.circuits ==> s.circuits["m"].state.Closed?)
  }

  predicate Rested(s: State, routeClass: string, tl: Instant, now: Instant) {
    tl <= now && (LimiterKey("u", routeClass) in s.limiter ==> tl + MINUTE <= now)
  }

  /** A new bucket, or one that has had a minute, holds a token. */
  lemma LimiterAdmits(cfg: Config, s: State, routeClass: string, tl: Instant, tg: Instant, d: int, now: Instant)
    requires Calm(s, tl, tg, d) && Rested(s, routeClass, tl, now)
    ensures var (s', limited) := LimiterStep(cfg, s, Checkout(routeClass), now);
            && limited == None && s' == s.(limiter := s'.limiter) && Calm(s', now, tg, d)
            && s'.limiter.Keys <= s.limiter.Keys + {LimiterKey("u", routeClass)}
  {
    var key := LimiterKey("u", routeClass);
    if key in s.limiter {
      var b := s.limiter[key];
      MinuteRefillsOne(b.limit, now - b.lastRefill);
    }
  }

  lemma MinuteRefillsOne(limit: int, elapsed: Duration)
    requires limit > 0 && elapsed >= MINUTE
    ensures limit * elapsed >= MINUTE
  {
    assert limit * elapsed >= limit * MINUTE;
  }

  lemma GuardAdmits(cfg: Config, s: State, routeClass: string, tl: Instant, tg: Instant, d: int, now: Instant, today: int)
    requires Calm(s, tl, tg, d) && tg + cfg.Cooldown() <= now && d < today
    ensures var (s1, denied) := GuardStep(cfg, s, Checkout(routeClass), now, today);
            denied == None && s1 == s.(guard := s1.guard) && Calm(s1, tl, now, today)
  {
  }

  lemma CircuitAdmits(cfg: Config, s: State, routeClass: string, tl: Instant, tg: Instant, d: int, now: Instant)
    requires Calm(s, tl, tg, d)
    ensures var (s2, refused) := CircuitStep(cfg, s, Checkout(routeClass), now);
            refused == None && s2 == s.(circuits := s2.circuits) && Calm(s2, tl, tg, d)
  {
  }

  /** A checkout that the cache does not answer is admitted. */
  lemma CheckoutAdmitted(cfg: Config, s: State, routeClass: string, tl: Instant, tg: Instant, d: int, now: Instant, today: int)
    requires Calm(s, tl, tg, d) && Rested(s, routeClass, tl, now) && tg + cfg.Cooldown() <= now && d < today
    requires IdempotencyCache.Answer(s.cache, KEY, now) == None
    ensures var (s', decision) := Before(cfg, s, Checkout(routeClass), now, today);
            && decision == Forward(KEY, "b") && Calm(s', now, now, today)
            && s'.cache == AfterGet(s.cache, KEY, now)
            && s'.limiter.Keys <= s.limiter.Keys + {LimiterKey("u", routeClass)}
  {
    LimiterAdmits(cfg, s, routeClass, tl, tg, d, now);
    var s1 := LimiterStep(cfg, s, Checkout(routeClass), now).0;
    var s2 := s1.(cache := AfterGet(s1.cache, KEY, now));
    assert Calm(s2, now, tg, d);
    GuardAdmits(cfg, s2, routeClass, now, tg, d, now, today);
    var s3 := GuardStep(cfg, s2, Checkout(routeClass), now, today).0;
    assert Calm(s3, now, now, today);
    CircuitAdmits(cfg, s3, routeClass, now, now, today, now);
    hide Calm, LimiterStep, GuardStep, CircuitStep, AfterGet, KEY;
  }

  /** Its payment is then stored. */
  lemma PaymentStored(cfg: Config, s: State, routeClass: string, tl: Instant, tg: Instant, d: int, at: Instant)
    requires Calm(s, tl, tg, d)
    ensures var report := ReportOf(Checkout(routeClass), PAID);
            var s' := After(cfg, s, Checkout(routeClass), Forward(KEY, "b"),
                            report.response, report.timeout, report.transportFailure, at);
            Calm(s', tl, tg, d) && s'.cache == s.cache[KEY := Entry(cfg, at)] && s'.limiter == s.limiter
  {
    KeyIsNotEmpty(Checkout(routeClass));
  }

  // ---- Runs put together ----

  /** The steps lead from s to s', storing in under the bound; cleanly, if asked. */
  ghost predicate Reaches(cfg: Config, bound: Duration, clean: bool, s: System, s': System, steps: seq<Step>) {
    s' == Execute(cfg, s, steps) && PromptRun(cfg, bound, s, steps) && (clean ==> CleanRun(cfg, s, steps))
  }

  lemma {:induction false} Chain(cfg: Config, bound: Duration, clean: bool, s: System, s1: System, s2: System,
                                 steps: seq<Step>, more: seq<Step>)
    requires Reaches(cfg, bound, clean, s, s1, steps) && Reaches(cfg, bound, clean, s1, s2, more)
    ensures Reaches(cfg, bound, clean, s, s2, steps + more)
    decreases steps
  {
    hide Next, PromptStep;
    if steps == [] {
      assert steps + more == more;
    } else {
      assert (steps + more)[1..] == steps[1..] + more;
      Chain(cfg, bound, clean, Next(cfg, s, steps[0]), s1, s2, steps[1..], more);
    }
  }

  lemma One(cfg: Config, bound: Duration, clean: bool, s: System, step: Step)
    requires PromptStep(bound, s, step)
    requires clean && step.Move? && step.id in s.flights ==> EvictsExpired(s, step.id)
    ensures Reaches(cfg, bound, clean, s, Next(cfg, s, step), [step])
  {
    hide Next, PromptStep;
    var s' := Next(cfg, s, step);
    assert [step][1..] == [];
    assert Execute(cfg, s', []) == s' && PromptRun(cfg, bound, s', []) && CleanRun(cfg, s', []);
  }

  /** A run by one request alone is clean, and stores in time if it ends in time. */
  lemma {:induction false} AloneIsProper(cfg: Config, bound: Duration, s: System, id: nat, steps: seq<Step>)
    requires id in s.flights && EvictsExpired(s, id)
    requires forall i :: 0 <= i < |steps| ==> steps[i].Tick? || (steps[i].Move? && steps[i].id == id)
    requires Execute(cfg, s, steps).clock < s.flights[id].now + bound
    ensures s.clock <= Execute(cfg, s, steps).clock
    ensures PromptRun(cfg, bound, s, steps) && CleanRun(cfg, s, steps)
    decreases steps
  {
    if steps != [] {
      AloneStep(cfg, s, id, steps[0]);
      hide Next, EvictsExpired;
      AloneIsProper(cfg, bound, Next(cfg, s, steps[0]), id, steps[1..]);
    }
  }

  lemma AloneStep(cfg: Config, s: System, id: nat, step: Step)
    requires id in s.flights && EvictsExpired(s, id) && (step.Tick? || (step.Move? && step.id == id))
    ensures var s' := Next(cfg, s, step);
            id in s'.flights && EvictsExpired(s', id) && s'.flights[id].now == s.flights[id].now && s.clock <= s'.clock
  {
    hide LimiterStep, GuardStep, CircuitStep, RecordStep, StoreStep, ReportOf, KeyOf;
  }

  /** A checkout arriving now, running alone and storing at the given time. */
  lemma CheckoutRuns(cfg: Config, bound: Duration, s: System, id: nat, routeClass: string, tl: Instant, tg: Instant, d: int,
                     today: int, later: Instant) returns (s': System, steps: seq<Step>)
    requires id !in s.flights && Calm(s.store, tl, tg, d) && Rested(s.store, routeClass, tl, s.clock)
    requires tg + cfg.Cooldown() <= s.clock <= later < s.clock + bound && d < today
    requires IdempotencyCache.Answer(s.store.cache, KEY, s.clock) == None
    ensures Reaches(cfg, bound, true, s, s', steps) && s'.clock == later && Calm(s'.store, s.clock, s.clock, today)
    ensures s'.store.cache == AfterGet(s.store.cache, KEY, s.clock)[KEY := Entry(cfg, later)]
    ensures s'.store.limiter.Keys <= s.store.limiter.Keys + {LimiterKey("u", routeClass)}
    ensures s'.log == s.log + [Stored(id, Checkout(routeClass), s.clock, later, Entry(cfg, later))]
    ensures s'.flights.Keys == s.flights.Keys + {id}
    ensures forall other :: other in s.flights ==> s'.flights[other] == s.flights[other]
  {
    var arrive := Arrive(id, Checkout(routeClass), today);
    var s1 := Arrived(cfg, bound, s, id, routeClass, today);
    hide Next, KEY, Calm, Rested, Before, After, ReportOf, AfterGet, Execute;
    var more;
    s', more := AloneIsHandled(cfg, s1, id, PAID, later);
    CheckoutAdmitted(cfg, s.store, routeClass, tl, tg, d, s.clock, today);
    AloneIsProper(cfg, bound, s1, id, more);
    PaymentStored(cfg, Before(cfg, s.store, Checkout(routeClass), s.clock, today).0, routeClass, s.clock, s.clock, today, later);
    CheckoutLogged(cfg, id, s1.flights[id], routeClass, later);
    steps := [arrive] + more;
    Chain(cfg, bound, true, s, s1, s', [arrive], more);
  }

  lemma Arrived(cfg: Config, bound: Duration, s: System, id: nat, routeClass: string, today: int) returns (s': System)
    requires id !in s.flights
    ensures s' == s.(flights := s.flights[id := Flight(Checkout(routeClass), s.clock, today, Phase.Arrived)])
    ensures Reaches(cfg, bound, true, s, s', [Arrive(id, Checkout(routeClass), today)]) && EvictsExpired(s', id)
  {
    One(cfg, bound, true, s, Arrive(id, Checkout(routeClass), today));
    s' := Next(cfg, s, Arrive(id, Checkout(routeClass), today));
  }

  lemma CheckoutLogged(cfg: Config, id: nat, f: Flight, routeClass: string, at: Instant)
    requires f.req == Checkout(routeClass)
    ensures LoggedBy(cfg, id, f, ReportOf(f.req, PAID), at) == [Stored(id, f.req, f.now, at, Entry(cfg, at))]
  {
    KeyIsNotEmpty(f.req);
  }

  /** The clock moves on, and nothing else. */
  lemma Wait(cfg: Config, bound: Duration, s: System, until: Instant) returns (s': System)
    requires until >= s.clock
    ensures s' == s.(clock := until) && Reaches(cfg, bound, true, s, s', [Tick(until)])
  {
    One(cfg, bound, true, s, Tick(until));
    s' := s.(clock := until);
  }

  // ---- A request slower than its cooldown ----

  /** The first checkout is still under way when its cooldown ends; a second, on a route of the other class, is admitted and
      stored, and then the first is stored at the same instant. */
  lemma SlowRequestRepeatsTransaction(cfg: Config, bound: Duration) returns (steps: seq<Step>)
    requires bound > cfg.Cooldown()
    ensures PromptRun(cfg, bound, Initial(0), steps) && CleanRun(cfg, Initial(0), steps)
    ensures !OncePerTTL(cfg, Execute(cfg, Initial(0), steps).log)
  {
    var c := cfg.Cooldown();
    var s2, run2 := SlowAdmitted(cfg, bound);
    hide Execute, Before, After, Calm, ReportOf, LoggedBy, KEY, PromptRun, CleanRun, Next;
    var s3 := Wait(cfg, bound, s2, c);
    OtherBucketIsNew();
    var s4, run4 := CheckoutRuns(cfg, bound, s3, 1, "transactional", 0, 0, 0, 1, c);
    var s5, run5 := AfterAlone(cfg, s4, 0, PAID, c);
    AloneIsProper(cfg, bound, s4, 0, run5);
    CheckoutLogged(cfg, 0, s4.flights[0], "read", c);
    Chain(cfg, bound, true, Initial(0), s2, s3, run2, [Tick(c)]);
    steps := run2 + [Tick(c)];
    Chain(cfg, bound, true, Initial(0), s3, s4, steps, run4);
    steps := steps + run4;
    Chain(cfg, bound, true, Initial(0), s4, s5, steps, run5);
    steps := steps + run5;
    assert SameRequest(s5.log[0].req, s5.log[1].req) && s5.log[1].at == s5.log[0].at;
  }

  // ---- A lookup that deletes late ----

  /** A stale lookup: it arrives after the entry has expired, reads it, and stops before deleting. */
  lemma StaleLookup(cfg: Config, bound: Duration, s: System, id: nat, tl: Instant, tg: Instant, d: int) returns (s': System, steps: seq<Step>)
    requires id !in s.flights && Calm(s.store, tl, tg, d) && Rested(s.store, "transactional", tl, s.clock)
    requires KEY in s.store.cache && Expired(s.store.cache[KEY], s.clock)
    ensures Reaches(cfg, bound, true, s, s', steps) && Calm(s'.store, s.clock, tg, d)
    ensures s' == s.(flights := s.flights[id := Flight(Checkout("transactional"), s.clock, d, Evicting)], store := s'.store)
    ensures s'.store.cache == s.store.cache
  {
    var arrive, move := Arrive(id, Checkout("transactional"), d), Move(id, PAID);
    var s1 := Arrived(cfg, bound, s, id, "transactional", d);
    LimiterAdmits(cfg, s.store, "transactional", tl, tg, d, s.clock);
    hide KEY, Calm, LimiterStep;
    var s2 := Next(cfg, s1, move);
    assert s2 == SetPhase(s1.(store := s2.store), id, Looking) && s2.store.cache == s.store.cache;
    One(cfg, bound, true, s1, move);
    Chain(cfg, bound, true, s, s1, s2, [arrive], [move]);
    s' := Next(cfg, s2, move);
    One(cfg, bound, true, s2, move);
    Chain(cfg, bound, true, s, s2, s', [arrive] + [move], [move]);
    steps := [arrive] + [move] + [move];
  }

  /** The stale lookup deletes what is there by now. */
  lemma LateDelete(cfg: Config, bound: Duration, s: System, id: nat, tl: Instant, tg: Instant, d: int) returns (s': System)
    requires id in s.flights && s.flights[id].phase.Evicting? && s.flights[id].req == Checkout("transactional")
    requires Calm(s.store, tl, tg, d)
    ensures Reaches(cfg, bound, false, s, s', [Move(id, PAID)])
    ensures s'.clock == s.clock && s'.log == s.log && s'.flights.Keys == s.flights.Keys
    ensures KEY !in s'.store.cache && Calm(s'.store, tl, tg, d)
  {
    One(cfg, bound, false, s, Move(id, PAID));
    s' := Next(cfg, s, Move(id, PAID));
  }

  /** From a store calm since one minute: a checkout served and stored just within the bound while a stale lookup waits. */
  lemma StoredUnderStaleLookup(cfg: Config, bound: Duration) returns (s: System, steps: seq<Step>, now: Instant)
    requires 0 < bound <= cfg.Cooldown()
    ensures Reaches(cfg, bound, true, Initial(0), s, steps)
    ensures s.clock == now + bound - 1 && Calm(s.store, now, now, 2)
    ensures s.flights.Keys == {0, 1, 2} && s.flights[1].phase.Evicting? && s.flights[1].req == Checkout("transactional")
    ensures |s.log| == 2 && s.log[1] == Stored(2, Checkout("transactional"), now, now + bound - 1, Entry(cfg, now + bound - 1))
  {
    var c, ttl := cfg.Cooldown(), cfg.IdempotencyTTL();
    var stale := if ttl < c then c else ttl + 1;
    StoreStartsCalm();
    assert Entry(cfg, 0).expiresAt == ttl;
    hide Execute, Calm, KEY, PromptRun, CleanRun, Entry;
    var s1, run1 := CheckoutRuns(cfg, bound, Initial(0), 0, "transactional", 0, -c, -1, 0, 0);
    var s2 := Wait(cfg, bound, s1, stale);
    Chain(cfg, bound, true, Initial(0), s1, s2, run1, [Tick(stale)]);
    steps := run1 + [Tick(stale)];
    var s3, run3 := StaleLookup(cfg, bound, s2, 1, 0, 0, 0);
    Chain(cfg, bound, true, Initial(0), s2, s3, steps, run3);
    steps := steps + run3;
    now := stale + MINUTE;
    var s4 := Wait(cfg, bound, s3, now);
    Chain(cfg, bound, true, Initial(0), s3, s4, steps, [Tick(now)]);
    steps := steps + [Tick(now)];
    var run5;
    s, run5 := CheckoutRuns(cfg, bound, s4, 2, "transactional", stale, 0, 0, 2, now + bound - 1);
    Chain(cfg, bound, true, Initial(0), s4, s, steps, run5);
    steps := steps + run5;
  }

  /** Though every response is stored in under the bound, a transaction repeats: a stale lookup deletes the entry of one
      checkout, and the next is admitted as soon as the cooldown (or the minute that fills any bucket) is over. */
  lemma LateDeleteRepeatsTransaction(cfg: Config, bound: Duration) returns (steps: seq<Step>)
    requires 0 < bound <= cfg.Cooldown() < bound + cfg.IdempotencyTTL()
    ensures PromptRun(cfg, bound, Initial(0), steps) && !OncePerTTL(cfg, Execute(cfg, Initial(0), steps).log)
  {
    var s1, run, now := StoredUnderStaleLookup(cfg, bound);
    hide Execute, Calm, KEY, PromptRun, CleanRun, Entry;
    steps := run;
    var s2 := LateDelete(cfg, bound, s1, 1, now, now, 2);
    Chain(cfg, bound, false, Initial(0), s1, s2, steps, [Move(1, PAID)]);
    steps := steps + [Move(1, PAID)];
    var next := now + if cfg.Cooldown() < MINUTE then MINUTE else cfg.Cooldown();
    var s3 := Wait(cfg, bound, s2, next);
    Chain(cfg, bound, false, Initial(0), s2, s3, steps, [Tick(next)]);
    steps := steps + [Tick(next)];
    var s4, run4 := CheckoutRuns(cfg, bound, s3, 3, "transactional", now, now, 2, 3, next);
    Chain(cfg, bound, false, Initial(0), s3, s4, steps, run4);
    steps := steps + run4;
    assert SameRequest(s4.log[1].req, s4.log[2].req) && s4.log[2].at <= s4.log[1].at + cfg.IdempotencyTTL();
  }

  lemma StoreStartsCalm()
    ensures forall tl, tg, d :: Calm(EMPTY, tl, tg, d)
  {
  }

  /** The first checkout, waiting for downstream. */
  lemma SlowAdmitted(cfg: Config, bound: Duration) returns (s: System, steps: seq<Step>)
    requires bound > 0
    ensures Reaches(cfg, bound, true, Initial(0), s, steps) && Calm(s.store, 0, 0, 0) && s.store.cache == map[]
    ensures s.flights == map[0 := Flight(Checkout("read"), 0, 0, Phase.Admitted)] && s.clock == 0 && s.log == []
    ensures s.store.limiter.Keys <= {LimiterKey("u", "read")}
  {
    var s1 := Arrived(cfg, bound, Initial(0), 0, "read", 0);
    StoreStartsCalm();
    CheckoutAdmitted(cfg, EMPTY, "read", 0, -cfg.Cooldown(), -1, 0, 0);
    assert AfterGet(map[], KEY, 0) == map[];
    hide Before, Calm, KEY, Next;
    var more;
    s, more := BeforeAlone(cfg, s1, 0, PAID);
    hide Execute;
    AloneIsProper(cfg, bound, s1, 0, more);
    steps := [Arrive(0, Checkout("read"), 0)] + more;
    Chain(cfg, bound, true, Initial(0), s1, s, [Arrive(0, Checkout("read"), 0)], more);
  }

  lemma OtherBucketIsNew()
    ensures LimiterKey("u", "transactional") != LimiterKey("u", "read")
  {
    if LimiterKey("u", "transactional") == LimiterKey("u", "read") {
      Keys.LimiterKeyIsInjective("u", "transactional", "u", "read");
    }
  }

  // ---- The exact conditions ----

  ghost predicate AlwaysOnce(cfg: Config, bound: Duration, clean: bool) {
    forall start, steps :: PromptRun(cfg, bound, Initial(start), steps) && (clean ==> CleanRun(cfg, Initial(start), steps)) ==>
      OncePerTTL(cfg, Execute(cfg, Initial(start), steps).log)
  }

  /** Exactly once, exactly: for every configuration, all runs that store in under the bound and delete only expired entries
      keep equal transactions more than a TTL apart if and only if the bound is at most the cooldown. */
  lemma ExactlyOnceIff(cfg: Config, bound: Duration)
    ensures AlwaysOnce(cfg, bound, true) <==> bound <= cfg.Cooldown()
  {
    hide Execute, PromptRun, CleanRun, OncePerTTL;
    if bound <= cfg.Cooldown() {
      forall start, steps | PromptRun(cfg, bound, Initial(start), steps) && CleanRun(cfg, Initial(start), steps)
        ensures OncePerTTL(cfg, Execute(cfg, Initial(start), steps).log)
      {
        ExactlyOncePerTTL(cfg, bound, start, steps);
      }
    } else {
      var steps := SlowRequestRepeatsTransaction(cfg, bound);
    }
  }

  /** And if lookups may delete late: if and only if nothing can be stored at all, or the cooldown outlasts the bound and the
      TTL together. */
  lemma LateDeletesHarmlessIff(cfg: Config, bound: Duration)
    ensures AlwaysOnce(cfg, bound, false) <==> bound <= 0 || bound + cfg.IdempotencyTTL() <= cfg.Cooldown()
  {
    if bound <= 0 || bound + cfg.IdempotencyTTL() <= cfg.Cooldown() {
      hide Execute, PromptRun;
      forall start, steps | PromptRun(cfg, bound, Initial(start), steps)
        ensures OncePerTTL(cfg, Execute(cfg, Initial(start), steps).log)
      {
        LateDeletes.GuardAloneSuffices(cfg, bound, start, steps);
      }
    } else {
      hide Execute, PromptRun, OncePerTTL;
      var steps;
      if bound > cfg.Cooldown() {
        steps := SlowRequestRepeatsTransaction(cfg, bound);
      } else {
        steps := LateDeleteRepeatsTransaction(cfg, bound);
      }
      assert PromptRun(cfg, bound, Initial(0), steps);
    }
  }
}
