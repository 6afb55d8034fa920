/** What a circuit has heard in an interleaved run, and that its state is nothing but that. */
module CircuitHistory {
  import opened Clock
  import opened Wrappers
  import opened Protection
  import opened IdempotencyCache
  import opened Routing
  import opened Gateway
  import CircuitBreaker
  import ProbeOwner

  // ---- What one request tells its circuit ----

  /** A timeout, a transport failure and a 5xx are failures, and only a timeout counts as one. */
  function Heard(status: int, timeout: bool, transportFailure: bool, at: Instant): CircuitBreaker.Event {
    if timeout || transportFailure || status >= 500 then CircuitBreaker.Failure(timeout, at) else CircuitBreaker.Success
  }

  function WithEvent(circuits: map<string, CircuitBreaker.Breaker>, service: string, event: CircuitBreaker.Event,
                     openWindow: Duration): map<string, CircuitBreaker.Breaker>
  {
    circuits[service := CircuitBreaker.Step(CircuitBreaker.Current(circuits, service), event, openWindow)]
  }

  /** After a forwarded request its circuit has heard exactly the outcome; limiter and guard are as they were; and the
      response is in the cache, under the request's key until the TTL is over, exactly if it is a transactional 2xx. */
  lemma AfterTells(cfg: Config, s: State, req: Request, key: Digest, bodyHash: Digest, response: CachedResponse,
                   timeout: bool, transportFailure: bool, now: Instant)
    ensures var s' := After(cfg, s, req, Forward(key, bodyHash), response, timeout, transportFailure, now);
            var stores := req.route.transactional && key != "" && 200 <= response.status < 300;
            && s'.limiter == s.limiter && s'.guard == s.guard
            && s'.circuits == WithEvent(s.circuits, req.route.serviceName, Heard(response.status, timeout, transportFailure, now), cfg.OpenWindow())
            && s'.cache == if stores
                 then s.cache[key := CachedResponse(response.status, response.headers, response.body, bodyHash, now + cfg.IdempotencyTTL())]
                 else s.cache
  {
    hide CircuitBreaker.RecordFailure, CircuitBreaker.RecordSuccess;
  }

  /** The event of each kind of downstream outcome. */
  function EventOf(req: Request, outcome: Downstream, at: Instant): CircuitBreaker.Event {
    match outcome
    case TimedOut => CircuitBreaker.Failure(true, at)
    case Broken => CircuitBreaker.Failure(false, at)
    case Replied(status, _, _, _, charged) =>
      var ok := 200 <= status < 300;
      if status >= 500 || (req.envelope && !ok) || (req.route.transactional && ok && charged.None?)
      then CircuitBreaker.Failure(false, at) else CircuitBreaker.Success
  }

  lemma ReportIsEventOf(req: Request, outcome: Downstream, at: Instant)
    ensures var report := ReportOf(req, outcome);
            Heard(report.response.status, report.timeout, report.transportFailure, at) == EventOf(req, outcome, at)
  {
  }

  // ---- Whole runs ----

  /** What a step lets the service's circuit hear: a request that comes to it, or the report of one that has been let
      through. */
  function EventMade(s: System, step: Step, service: string): seq<CircuitBreaker.Event> {
    if step.Move? && step.id in s.flights && s.flights[step.id].req.route.serviceName == service then
      var f := s.flights[step.id];
      match f.phase
      case Cleared => [CircuitBreaker.Ask(f.now)]
      case Reporting(report, at) => [Heard(report.response.status, report.timeout, report.transportFailure, at)]
      case _ => []
    else []
  }

  /** Everything the service's circuit hears in a run, in order. */
  function Events(cfg: Config, s: System, steps: seq<Step>, service: string): seq<CircuitBreaker.Event>
    decreases steps
  {
    if steps == [] then [] else EventMade(s, steps[0], service) + Events(cfg, Next(cfg, s, steps[0]), steps[1..], service)
  }

  function CircuitOf(s: System, service: string): CircuitBreaker.Breaker {
    CircuitBreaker.Current(s.store.circuits, service)
  }

  /** The circuit moves by what it hears, and by nothing else. */
  lemma StepHeard(cfg: Config, s: System, step: Step, service: string)
    ensures var made := EventMade(s, step, service);
            CircuitOf(Next(cfg, s, step), service)
            == if made == [] then CircuitOf(s, service) else CircuitBreaker.Step(CircuitOf(s, service), made[0], cfg.OpenWindow())
  {
    if step.Move? && step.id in s.flights { MoveHeard(cfg, s, step.id, step.outcome, service); }
    hide Advance, AfterCleanup, CircuitBreaker.Step;
  }

  lemma MoveHeard(cfg: Config, s: System, id: nat, outcome: Downstream, service: string)
    requires id in s.flights
    ensures var made := EventMade(s, Move(id, outcome), service);
            CircuitOf(Advance(cfg, s, id, outcome), service)
            == if made == [] then CircuitOf(s, service) else CircuitBreaker.Step(CircuitOf(s, service), made[0], cfg.OpenWindow())
  {
    match s.flights[id].phase {
      case Cleared => AskHeard(cfg, s, id, service);
      case Reporting(_, _) => ReportHeard(s, id, service, cfg.OpenWindow());
      case _ =>
        ProbeOwner.StepsKeepCircuits(cfg, s, s.flights[id]);
        hide LimiterStep, GuardStep, StoreStep, CacheVerdict, ReportOf, KeyOf, CircuitBreaker.Step;
    }
  }

  lemma AskHeard(cfg: Config, s: System, id: nat, service: string)
    requires id in s.flights && s.flights[id].phase.Cleared?
    ensures var f := s.flights[id];
            CircuitOf(Circuit(cfg, s, id), service)
            == if f.req.route.serviceName != service then CircuitOf(s, service)
               else CircuitBreaker.Step(CircuitOf(s, service), CircuitBreaker.Ask(f.now), cfg.OpenWindow())
  {
    hide CircuitBreaker.Allow;
  }

  lemma ReportHeard(s: System, id: nat, service: string, openWindow: Duration)
    requires id in s.flights && s.flights[id].phase.Reporting?
    ensures var f := s.flights[id];
            var Reporting(report, at) := f.phase;
            CircuitOf(Tell(s, id), service)
            == if f.req.route.serviceName != service then CircuitOf(s, service)
               else CircuitBreaker.Step(CircuitOf(s, service),
                      Heard(report.response.status, report.timeout, report.transportFailure, at), openWindow)
  {
    hide CircuitBreaker.RecordFailure, CircuitBreaker.RecordSuccess, Stores, KeyOf;
  }

  lemma AtMostOneMade(s: System, step: Step, service: string)
    ensures |EventMade(s, step, service)| <= 1
  {
  }

  lemma {:induction false} CircuitIsItsHistoryFrom(cfg: Config, s: System, steps: seq<Step>, service: string, heard: seq<CircuitBreaker.Event>)
    requires CircuitOf(s, service) == CircuitBreaker.Run(heard, cfg.OpenWindow())
    ensures CircuitOf(Execute(cfg, s, steps), service)
         == CircuitBreaker.Run(heard + Events(cfg, s, steps, service), cfg.OpenWindow())
    decreases steps
  {
    hide Next, CircuitOf, CircuitBreaker.Run, CircuitBreaker.Step, EventMade;
    if steps == [] {
      assert heard + [] == heard;
    } else {
      var s1, made := Next(cfg, s, steps[0]), EventMade(s, steps[0], service);
      StepHeard(cfg, s, steps[0], service);
      if made == [] { assert heard + made == heard; } else { CircuitBreaker.RunAppend(heard, made[0], cfg.OpenWindow()); }
      assert made == [] || made == [made[0]] by { AtMostOneMade(s, steps[0], service); }
      CircuitIsItsHistoryFrom(cfg, s1, steps[1..], service, heard + made);
      assert heard + made + Events(cfg, s1, steps[1..], service) == heard + Events(cfg, s, steps, service);
    }
  }

  /** In every interleaving a service's circuit is what its own events, in the order it heard them, make of a fresh one. */
  lemma CircuitIsItsHistory(cfg: Config, start: Instant, steps: seq<Step>, service: string)
    ensures CircuitOf(Execute(cfg, Initial(start), steps), service)
         == CircuitBreaker.Run(Events(cfg, Initial(start), steps, service), cfg.OpenWindow())
  {
    CircuitIsItsHistoryFrom(cfg, Initial(start), steps, service, []);
    assert [] + Events(cfg, Initial(start), steps, service) == Events(cfg, Initial(start), steps, service);
    hide Execute, Events;
  }

  /** So in every interleaving the next request that comes to the circuit is let through if and only if, since the last
      success the circuit heard, it heard fewer than five failures and no timeout while two earlier ones still lasted, or it
      has been open for the window. */
  lemma LetThroughIff(cfg: Config, start: Instant, steps: seq<Step>, id: nat)
    requires var s := Execute(cfg, Initial(start), steps); id in s.flights && s.flights[id].phase.Cleared?
    ensures var s := Execute(cfg, Initial(start), steps);
            var service := s.flights[id].req.route.serviceName;
            var events := Events(cfg, Initial(start), steps, service);
            var failures := CircuitBreaker.FailuresSince(events);
            var opening := CircuitBreaker.Opening(events, cfg.OpenWindow());
            Circuit(cfg, s, id).flights[id].phase.Admitted? <==>
              || (|failures| < 5 && !CircuitBreaker.ThreeLast(CircuitBreaker.TimeoutTimes(failures)))
              || (CircuitOf(s, service).state.Open? && opening.Some? && s.flights[id].now >= opening.value + cfg.OpenWindow())
  {
    hide Execute, Events, CircuitBreaker.Allow, CircuitBreaker.Run, CircuitBreaker.ThreeLast, CircuitBreaker.Opening;
    var s := Execute(cfg, Initial(start), steps);
    var service := s.flights[id].req.route.serviceName;
    CircuitIsItsHistory(cfg, start, steps, service);
    CircuitBreaker.AdmitsIff(Events(cfg, Initial(start), steps, service), cfg.OpenWindow(), s.flights[id].now);
  }

  /** How many requests for the service are let through in a run. */
  function LetThrough(cfg: Config, s: System, steps: seq<Step>, service: string): nat
    decreases steps
  {
    if steps == [] then 0
    else
      var s' := Next(cfg, s, steps[0]);
      LetThrough(cfg, s', steps[1..], service)
      + if steps[0].Move? && steps[0].id in s.flights && s.flights[steps[0].id].req.route.serviceName == service
           && s.flights[steps[0].id].phase.Cleared? && s'.flights[steps[0].id].phase.Admitted? then 1 else 0
  }

  lemma StepLetsThrough(cfg: Config, s: System, step: Step, service: string)
    ensures LetThrough(cfg, s, [step], service)
         == CircuitBreaker.Probes(CircuitOf(s, service), EventMade(s, step, service), cfg.OpenWindow())
  {
    hide CircuitBreaker.RecordFailure, CircuitBreaker.RecordSuccess, CircuitBreaker.Allow;
    hide LimiterStep, GuardStep, RecordStep, StoreStep, CacheVerdict, ReportOf, Stores, KeyOf, AfterCleanup;
    var s' := Next(cfg, s, step);
    assert [step][1..] == [] && LetThrough(cfg, s', [], service) == 0;
  }

  lemma ProbesSplit(b: CircuitBreaker.Breaker, first: seq<CircuitBreaker.Event>, rest: seq<CircuitBreaker.Event>, openWindow: Duration)
    requires |first| <= 1
    ensures CircuitBreaker.Probes(b, first + rest, openWindow)
         == CircuitBreaker.Probes(b, first, openWindow)
          + CircuitBreaker.Probes(if first == [] then b else CircuitBreaker.Step(b, first[0], openWindow), rest, openWindow)
  {
    hide CircuitBreaker.Step, CircuitBreaker.Allow;
    if first == [] {
      assert first + rest == rest;
    } else {
      assert (first + rest)[1..] == rest;
    }
  }

  lemma {:induction false} LetThroughAreProbes(cfg: Config, s: System, steps: seq<Step>, service: string)
    ensures LetThrough(cfg, s, steps, service)
         == CircuitBreaker.Probes(CircuitOf(s, service), Events(cfg, s, steps, service), cfg.OpenWindow())
    decreases steps
  {
    hide Next, CircuitOf, CircuitBreaker.Step, CircuitBreaker.Probes, EventMade;
    if steps == [] {
      NoProbes(CircuitOf(s, service), cfg.OpenWindow());
    } else {
      var s1, made := Next(cfg, s, steps[0]), EventMade(s, steps[0], service);
      LetThroughAreProbes(cfg, s1, steps[1..], service);
      StepLetsThrough(cfg, s, steps[0], service);
      StepHeard(cfg, s, steps[0], service);
      AtMostOneMade(s, steps[0], service);
      ProbesSplit(CircuitOf(s, service), made, Events(cfg, s1, steps[1..], service), cfg.OpenWindow());
      assert [steps[0]][1..] == [] && LetThrough(cfg, s1, [], service) == 0;
    }
  }

  lemma NoProbes(b: CircuitBreaker.Breaker, openWindow: Duration)
    ensures CircuitBreaker.Probes(b, [], openWindow) == 0
  {
  }

  /** And in every interleaving in which a report at t0 opens the circuit, the requests let through in a continuation up to
      time t, in which the circuit hears no success and hears in the order of times, are at most (t - t0) / openWindow. */
  lemma LetThroughWithinBudget(cfg: Config, start: Instant, steps: seq<Step>, report: Step, more: seq<Step>, service: string, t: Instant)
    requires var s := Execute(cfg, Initial(start), steps);
             var s' := Next(cfg, s, report);
             var made, events := EventMade(s, report, service), Events(cfg, s', more, service);
             && !CircuitOf(s, service).state.Open? && CircuitOf(s', service).state.Open?
             && |made| == 1 && made[0].Failure? && made[0].now <= t
             && CircuitBreaker.NoSuccess(events) && CircuitBreaker.TimesWithin(events, made[0].now, t)
    ensures var s := Execute(cfg, Initial(start), steps);
            LetThrough(cfg, Next(cfg, s, report), more, service) <= (t - EventMade(s, report, service)[0].now) / cfg.OpenWindow()
  {
    assert cfg.OpenWindow() > 0;
    hide *;
    var s := Execute(cfg, Initial(start), steps);
    var s' := Next(cfg, s, report);
    var failure := EventMade(s, report, service)[0];
    var heard := Events(cfg, Initial(start), steps, service);
    CircuitIsItsHistory(cfg, start, steps, service);
    StepHeard(cfg, s, report, service);
    CircuitBreaker.RunAppend(heard, failure, cfg.OpenWindow());
    LetThroughAreProbes(cfg, s', more, service);
    CircuitBreaker.ProbeBudget(heard, failure, Events(cfg, s', more, service), cfg.OpenWindow(), t);
  }
}
