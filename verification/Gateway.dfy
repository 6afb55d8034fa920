/** The gateway as an interleaving of requests: each store call is one atomic step, and any request may move next. */
module Gateway {
  import opened Clock
  import opened Wrappers
  import opened KeyedStore
  import opened Protection
  import opened IdempotencyCache
  import opened Routing
  import CircuitBreaker

  /** Where a request stands between two atomic steps. */
  datatype Phase =
    | Arrived
    | Looking                                  // past the limiter, transactional, with a key
    | Evicting                                 // has read an expired entry and not yet deleted it
    | Missed                                   // the cache had no answer
    | Cleared                                  // past the guard, or not transactional
    | Admitted                                 // past the circuit: downstream is being called
    | Reporting(report: Report, at: Instant)   // `After` has begun at time `at`
    | Storing(report: Report, at: Instant)     // the circuit has heard; the response is about to be stored
    | Done(answer: Answer)

  /** A request and the `now` it took on arrival. */
  datatype Flight = Flight(req: Request, now: Instant, today: int, phase: Phase)

  /** One `Set` of the cache: who stored, when it had arrived, when its `After` began and what it stored. */
  datatype Stored = Stored(id: nat, req: Request, start: Instant, at: Instant, entry: CachedResponse)

  /** `log` and `prober` are history: every response stored so far, and who last took each service's probe. */
  datatype System = System(
    clock: Instant, store: State, flights: map<nat, Flight>, log: seq<Stored>, prober: map<string, nat>)

  datatype Step =
    | Tick(time: Instant)
    | Arrive(id: nat, req: Request, today: int)
    | Move(id: nat, outcome: Downstream)
    | Cleanup(at: Instant)

  function Initial(start: Instant): System { System(start, EMPTY, map[], [], map[]) }

  function SetPhase(s: System, id: nat, phase: Phase): System
    requires id in s.flights
  {
    s.(flights := s.flights[id := s.flights[id].(phase := phase)])
  }

  function Limit(cfg: Config, s: System, id: nat): System
    requires id in s.flights
  {
    var f := s.flights[id];
    var (store, denied) := LimiterStep(cfg, s.store, f.req, f.now);
    var phase :=
      if denied.Some? then Done(Refused(denied.value))
      else if !f.req.route.transactional then Cleared
      else if f.req.idempotencyHeader == "" then Done(Refused(KeyRequired))
      else Looking;
    SetPhase(s.(store := store), id, phase)
  }

  function Look(s: System, id: nat): System
    requires id in s.flights
  {
    var f := s.flights[id];
    var key := KeyOf(f.req);
    var phase :=
      match CacheVerdict(s.store, f.req, f.now)
      case Some(Replay(cached)) => Done(FromCache(cached))
      case Some(_) => Done(Refused(KeyConflict))
      case None => if key in s.store.cache then Evicting else Missed;
    SetPhase(s, id, phase)
  }

  /** The lookup's delete, under its second lock, removes whatever is under the key by now. */
  function Evict(s: System, id: nat): System
    requires id in s.flights
  {
    SetPhase(s.(store := s.store.(cache := s.store.cache - {KeyOf(s.flights[id].req)})), id, Missed)
  }

  function Guard(cfg: Config, s: System, id: nat): System
    requires id in s.flights
  {
    var f := s.flights[id];
    var (store, denied) := GuardStep(cfg, s.store, f.req, f.now, f.today);
    SetPhase(s.(store := store), id, if denied.Some? then Done(Refused(denied.value)) else Cleared)
  }

  function Circuit(cfg: Config, s: System, id: nat): System
    requires id in s.flights
  {
    var f := s.flights[id];
    var service := f.req.route.serviceName;
    var (store, denied) := CircuitStep(cfg, s.store, f.req, f.now);
    var tookProbe := denied.None? && store.circuits[service].probeInUse;
    SetPhase(s.(store := store, prober := if tookProbe then s.prober[service := id] else s.prober),
             id, if denied.Some? then Done(Refused(denied.value)) else Admitted)
  }

  /** The downstream call ends, unless its request could not even be built. */
  function Reply(s: System, id: nat, outcome: Downstream): System
    requires id in s.flights
  {
    var f := s.flights[id];
    SetPhase(s, id, if f.req.wellFormed then Reporting(ReportOf(f.req, outcome), s.clock) else Done(Unbuildable))
  }

  function Tell(s: System, id: nat): System
    requires id in s.flights && s.flights[id].phase.Reporting?
  {
    var f := s.flights[id];
    var Reporting(report, at) := f.phase;
    var failed := CountsAsFailure(report.response.status, report.timeout, report.transportFailure);
    SetPhase(s.(store := RecordStep(s.store, f.req.route.serviceName, failed, report.timeout, at)), id,
             if Stores(f.req, KeyOf(f.req), report.response) then Storing(report, at) else Done(Delivered(report.response)))
  }

  function EntryOf(cfg: Config, f: Flight): CachedResponse
    requires f.phase.Storing?
  {
    Stamped(cfg, f.phase.report.response, BodyHash(f.req.body), f.phase.at)
  }

  function Keep(cfg: Config, s: System, id: nat): System
    requires id in s.flights && s.flights[id].phase.Storing?
  {
    var f := s.flights[id];
    var Storing(report, at) := f.phase;
    SetPhase(s.(store := StoreStep(cfg, s.store, KeyOf(f.req), BodyHash(f.req.body), report.response, at),
                log := s.log + [Stored(id, f.req, f.now, at, EntryOf(cfg, f))]),
             id, Done(Delivered(report.response)))
  }

  function Advance(cfg: Config, s: System, id: nat, outcome: Downstream): System
    requires id in s.flights
  {
    match s.flights[id].phase
    case Arrived => Limit(cfg, s, id)
    case Looking => Look(s, id)
    case Evicting => Evict(s, id)
    case Missed => Guard(cfg, s, id)
    case Cleared => Circuit(cfg, s, id)
    case Admitted => Reply(s, id, outcome)
    case Reporting(_, _) => Tell(s, id)
    case Storing(_, _) => Keep(cfg, s, id)
    case Done(_) => s
  }

  /** Steps that are not possible leave the system as it is. A cleanup may run on an old tick. */
  function Next(cfg: Config, s: System, step: Step): System {
    match step
    case Tick(t) => if t >= s.clock then s.(clock := t) else s
    case Arrive(id, req, today) =>
      if id in s.flights then s else s.(flights := s.flights[id := Flight(req, s.clock, today, Arrived)])
    case Move(id, outcome) => if id in s.flights then Advance(cfg, s, id, outcome) else s
    case Cleanup(at) =>
      if at <= s.clock then s.(store := s.store.(cache := AfterCleanup(s.store.cache, at))) else s
  }

  function Execute(cfg: Config, s: System, steps: seq<Step>): System
    decreases steps
  {
    if steps == [] then s else Execute(cfg, Next(cfg, s, steps[0]), steps[1..])
  }

  /** At least the cooldown apart, in either order. */
  predicate Apart(cfg: Config, t: Instant, t': Instant) { t + cfg.Cooldown() <= t' || t' + cfg.Cooldown() <= t }

  lemma {:induction false} ExecuteAppend(cfg: Config, s: System, first: seq<Step>, rest: seq<Step>)
    ensures Execute(cfg, s, first + rest) == Execute(cfg, Execute(cfg, s, first), rest)
    decreases first
  {
    hide Next;
    if first == [] {
      assert first + rest == rest;
    } else {
      assert (first + rest)[1..] == first[1..] + rest;
      ExecuteAppend(cfg, Next(cfg, s, first[0]), first[1..], rest);
    }
  }

  lemma ExecuteTwo(cfg: Config, s: System, first: Step, second: Step)
    ensures Execute(cfg, s, [first, second]) == Next(cfg, Next(cfg, s, first), second)
  {
    hide Next;
    var s1 := Next(cfg, s, first);
    assert [first, second][1..] == [second] && [second][1..] == [];
    assert Execute(cfg, s1, [second]) == Execute(cfg, Next(cfg, s1, second), []);
  }
}
