/** The breaker never wedges: a half-open circuit always has the request that took its probe still to report. */
module ProbeOwner {
  import opened Clock
  import opened Wrappers
  import opened Protection
  import opened IdempotencyCache
  import opened Routing
  import opened Gateway
  import CircuitBreaker

  /** The flight has passed the service's circuit and has not told it the outcome. */
  predicate Owes(f: Flight, service: string) {
    f.req.route.serviceName == service && (f.phase.Admitted? || f.phase.Reporting?)
  }

  /** The one way out that tells the circuit nothing: the downstream request could not be built. */
  predicate LeftSilently(f: Flight, service: string) {
    f.req.route.serviceName == service && f.phase == Done(Unbuildable) && !f.req.wellFormed
  }

  predicate Probed(s: System, service: string)
    requires service in s.store.circuits
  {
    var b := s.store.circuits[service];
    && (b.state.HalfOpen? <==> b.probeInUse)
    && (b.state.HalfOpen? ==>
          && service in s.prober && s.prober[service] in s.flights
          && (Owes(s.flights[s.prober[service]], service) || LeftSilently(s.flights[s.prober[service]], service)))
  }

  ghost predicate AllProbed(s: System) { forall service :: service in s.store.circuits ==> Probed(s, service) }

  lemma CircuitKeeps(cfg: Config, s: System, id: nat)
    requires AllProbed(s) && id in s.flights && s.flights[id].phase.Cleared?
    ensures AllProbed(Circuit(cfg, s, id))
  {
    var s' := Circuit(cfg, s, id);
    forall service | service in s'.store.circuits ensures Probed(s', service) {
      assert service in s.store.circuits ==> Probed(s, service);
    }
  }

  lemma TellKeeps(s: System, id: nat)
    requires AllProbed(s) && id in s.flights && s.flights[id].phase.Reporting?
    ensures AllProbed(Tell(s, id))
    ensures var service := s.flights[id].req.route.serviceName;
            service in Tell(s, id).store.circuits && !Tell(s, id).store.circuits[service].state.HalfOpen?
  {
    hide Stores, CountsAsFailure, CircuitBreaker.After;
    var s' := Tell(s, id);
    forall service | service in s'.store.circuits ensures Probed(s', service) {
      assert service in s.store.circuits ==> Probed(s, service);
    }
  }

  /** A move that leaves circuits and probers alone, by a flight that owed nothing or owes the same after. */
  lemma OtherMoveKeeps(s: System, s': System, id: nat)
    requires AllProbed(s) && id in s.flights
    requires s'.store.circuits == s.store.circuits && s'.prober == s.prober && s.flights.Keys <= s'.flights.Keys
    requires forall i :: i in s.flights && i != id ==> s'.flights[i] == s.flights[i]
    requires forall service :: Owes(s.flights[id], service) || LeftSilently(s.flights[id], service) ==>
                               Owes(s'.flights[id], service) || LeftSilently(s'.flights[id], service)
    ensures AllProbed(s')
  {
    forall service | service in s'.store.circuits ensures Probed(s', service) {
      assert Probed(s, service);
    }
  }

  lemma NextKeeps(cfg: Config, s: System, step: Step)
    requires AllProbed(s)
    ensures AllProbed(Next(cfg, s, step))
  {
    hide LimiterStep, GuardStep, CircuitStep, RecordStep, StoreStep, CacheVerdict, ReportOf;
    var s' := Next(cfg, s, step);
    if step.Move? && step.id in s.flights {
      var f := s.flights[step.id];
      StepsKeepCircuits(cfg, s, f);
      match f.phase {
        case Cleared => CircuitKeeps(cfg, s, step.id);
        case Reporting(_, _) => TellKeeps(s, step.id);
        case _ => OtherMoveKeeps(s, s', step.id);
      }
    } else {
      forall service | service in s'.store.circuits ensures Probed(s', service) {
        assert Probed(s, service);
      }
    }
  }

  lemma StepsKeepCircuits(cfg: Config, s: System, f: Flight)
    ensures LimiterStep(cfg, s.store, f.req, f.now).0.circuits == s.store.circuits
    ensures GuardStep(cfg, s.store, f.req, f.now, f.today).0.circuits == s.store.circuits
    ensures f.phase.Storing? ==>
      StoreStep(cfg, s.store, KeyOf(f.req), BodyHash(f.req.body), f.phase.report.response, f.phase.at).circuits == s.store.circuits
  {
  }

  lemma {:induction false} ProbedForever(cfg: Config, s: System, steps: seq<Step>)
    requires AllProbed(s)
    ensures AllProbed(Execute(cfg, s, steps))
    decreases steps
  {
    hide AllProbed, Next;
    if steps != [] {
      NextKeeps(cfg, s, steps[0]);
      ProbedForever(cfg, Next(cfg, s, steps[0]), steps[1..]);
    }
  }

  /** In every reachable state a circuit is half-open exactly when its probe is out, and then the request that took it has
      either still to report, or has left silently because it could not be built, according to whether it was well formed. */
  lemma HalfOpenHasOwner(cfg: Config, start: Instant, steps: seq<Step>, service: string)
    requires service in Execute(cfg, Initial(start), steps).store.circuits
    ensures var s := Execute(cfg, Initial(start), steps);
            var b := s.store.circuits[service];
            && (b.state.HalfOpen? <==> b.probeInUse)
            && (b.state.HalfOpen? ==>
                  && service in s.prober && s.prober[service] in s.flights
                  && var owner := s.flights[s.prober[service]];
                     && owner.req.route.serviceName == service
                     && (owner.req.wellFormed ==> Owes(owner, service))
                     && (!Owes(owner, service) <==> LeftSilently(owner, service)))
  {
    ProbedForever(cfg, Initial(start), steps);
    assert Probed(Execute(cfg, Initial(start), steps), service);
  }

  /** How often the request moves in a run. */
  function Moves(steps: seq<Step>, id: nat): nat {
    if steps == [] then 0 else (if steps[0].Move? && steps[0].id == id then 1 else 0) + Moves(steps[1..], id)
  }

  lemma OwnerStep(cfg: Config, s: System, step: Step, id: nat, service: string)
    requires AllProbed(s) && id in s.flights && Owes(s.flights[id], service) && s.flights[id].req.wellFormed
    requires service in s.store.circuits
    ensures var s' := Next(cfg, s, step);
            && AllProbed(s') && service in s'.store.circuits && id in s'.flights && s'.flights[id].req.wellFormed
            && (!(step.Move? && step.id == id) ==> s'.flights[id] == s.flights[id])
            && (step.Move? && step.id == id ==>
                  if s.flights[id].phase.Reporting? then !s'.store.circuits[service].state.HalfOpen?
                  else s'.flights[id].phase.Reporting? && Owes(s'.flights[id], service))
  {
    NextKeeps(cfg, s, step);
    CircuitsStay(cfg, s, step, service);
    hide LimiterStep, GuardStep, CircuitStep, RecordStep, StoreStep, CacheVerdict, ReportOf, Stores, CountsAsFailure, AllProbed;
    if step.Move? && step.id == id {
      if s.flights[id].phase.Reporting? { TellKeeps(s, id); }
    } else if step.Move? && step.id in s.flights {
      FlightOfOther(cfg, s, step.id, step.outcome, id);
      hide Advance;
    }
  }

  lemma FlightOfOther(cfg: Config, s: System, moved: nat, outcome: Downstream, id: nat)
    requires moved in s.flights && id in s.flights && moved != id
    ensures id in Advance(cfg, s, moved, outcome).flights && Advance(cfg, s, moved, outcome).flights[id] == s.flights[id]
  {
    hide LimiterStep, GuardStep, CircuitStep, RecordStep, StoreStep, CacheVerdict, ReportOf, Stores, CountsAsFailure;
  }

  lemma CircuitsStay(cfg: Config, s: System, step: Step, service: string)
    requires service in s.store.circuits
    ensures service in Next(cfg, s, step).store.circuits
  {
    if step.Move? && step.id in s.flights {
      StepsKeepCircuits(cfg, s, s.flights[step.id]);
      StepsKeepKeys(cfg, s, s.flights[step.id], service);
      hide LimiterStep, GuardStep, CircuitStep, RecordStep, StoreStep, CacheVerdict, ReportOf, Stores, CountsAsFailure, KeyOf;
      assert service in Advance(cfg, s, step.id, step.outcome).store.circuits;
    }
    hide Advance, AfterCleanup;
  }

  lemma StepsKeepKeys(cfg: Config, s: System, f: Flight, service: string)
    requires service in s.store.circuits
    ensures service in CircuitStep(cfg, s.store, f.req, f.now).0.circuits
    ensures f.phase.Reporting? ==>
      forall failed :: service in RecordStep(s.store, f.req.route.serviceName, failed, f.phase.report.timeout, f.phase.at).circuits
  {
  }

  /** An owner that can be built takes the circuit out of half-open: in every run in which it makes the two moves it has
      left (one if it is already reporting), whatever everybody else does in between, there is a moment at which the circuit
      is not half-open. */
  lemma {:induction false} OwnerSettles(cfg: Config, s: System, steps: seq<Step>, id: nat, service: string) returns (n: nat)
    requires AllProbed(s) && id in s.flights && Owes(s.flights[id], service) && s.flights[id].req.wellFormed
    requires service in s.store.circuits
    requires Moves(steps, id) >= if s.flights[id].phase.Reporting? then 1 else 2
    ensures n <= |steps|
    ensures var s' := Execute(cfg, s, steps[..n]);
            service in s'.store.circuits && !s'.store.circuits[service].state.HalfOpen?
    decreases steps
  {
    var s1 := Next(cfg, s, steps[0]);
    OwnerStep(cfg, s, steps[0], id, service);
    hide Next, AllProbed;
    if steps[0].Move? && steps[0].id == id && s.flights[id].phase.Reporting? {
      n := 1;
      assert steps[..1][1..] == [] && Execute(cfg, s1, []) == s1;
    } else {
      n := OwnerSettles(cfg, s1, steps[1..], id, service);
      n := n + 1;
      assert steps[..n][1..] == steps[1..][..n - 1];
    }
  }

  // ---- Without an owner, half-open is for ever ----

  /** The flight will still tell the circuit the outcome: it owes it one, and its downstream request can be built. */
  predicate WillReport(f: Flight, service: string) { Owes(f, service) && (f.phase.Reporting? || f.req.wellFormed) }

  ghost predicate Wedged(s: System, service: string) {
    && service in s.store.circuits && s.store.circuits[service].state.HalfOpen? && s.store.circuits[service].probeInUse
    && forall id :: id in s.flights ==> !WillReport(s.flights[id], service)
  }

  lemma WedgedMove(cfg: Config, s: System, service: string, id: nat, outcome: Downstream)
    requires Wedged(s, service) && id in s.flights
    ensures var s' := Advance(cfg, s, id, outcome);
            && s'.flights == s.flights[id := s'.flights[id]] && !WillReport(s'.flights[id], service)
            && service in s'.store.circuits && s'.store.circuits[service] == s.store.circuits[service]
  {
    hide LimiterStep, GuardStep, CircuitStep, RecordStep, StoreStep, CacheVerdict, ReportOf, Stores, CountsAsFailure;
    var f := s.flights[id];
    assert !WillReport(f, service);
    match f.phase {
      case Cleared => WedgedRefuses(cfg, s, f, service);
      case Reporting(_, _) => RecordsElsewhere(s, f, service);
      case Admitted =>
      case _ => StepsKeepCircuits(cfg, s, f);
    }
  }

  lemma WedgedNext(cfg: Config, s: System, service: string, step: Step)
    requires Wedged(s, service)
    ensures Wedged(Next(cfg, s, step), service)
  {
    hide Advance;
    if step.Move? && step.id in s.flights { WedgedMove(cfg, s, service, step.id, step.outcome); }
  }

  lemma WedgedRefuses(cfg: Config, s: System, f: Flight, service: string)
    requires service in s.store.circuits && s.store.circuits[service].state.HalfOpen? && s.store.circuits[service].probeInUse
    ensures var (store, denied) := CircuitStep(cfg, s.store, f.req, f.now);
            && service in store.circuits && store.circuits[service] == s.store.circuits[service]
            && (f.req.route.serviceName == service ==> denied == Some(CircuitOpen))
  {
  }

  lemma RecordsElsewhere(s: System, f: Flight, service: string)
    requires service in s.store.circuits && !Owes(f, service)
    ensures f.phase.Reporting? ==>
      forall failed :: var circuits := RecordStep(s.store, f.req.route.serviceName, failed, f.phase.report.timeout, f.phase.at).circuits;
                       service in circuits && circuits[service] == s.store.circuits[service]
  {
  }

  /** A half-open circuit to which nobody will report stays half-open, and refuses everyone, in every continuation. */
  lemma {:induction false} WedgedForever(cfg: Config, s: System, service: string, steps: seq<Step>)
    requires Wedged(s, service)
    ensures Wedged(Execute(cfg, s, steps), service)
    ensures forall id :: var s' := Execute(cfg, s, steps);
      id in s'.flights && s'.flights[id].phase.Cleared? && s'.flights[id].req.route.serviceName == service ==>
        Circuit(cfg, s', id).flights[id].phase == Done(Refused(CircuitOpen))
    decreases steps
  {
    if steps != [] {
      WedgedNext(cfg, s, service, steps[0]);
      WedgedForever(cfg, Next(cfg, s, steps[0]), service, steps[1..]);
    }
  }

  predicate HalfOpen(s: System, service: string) {
    service in s.store.circuits && s.store.circuits[service].state.HalfOpen?
  }

  /** Any flight that will report, owner or not, can end half-open within two moves. */
  lemma ReporterSettles(cfg: Config, s: System, id: nat, service: string) returns (steps: seq<Step>)
    requires AllProbed(s) && id in s.flights && WillReport(s.flights[id], service) && service in s.store.circuits
    ensures !HalfOpen(Execute(cfg, s, steps), service)
  {
    hide Stores, CountsAsFailure, ReportOf, RecordStep, AllProbed;
    if s.flights[id].phase.Reporting? {
      steps := [Move(id, TimedOut)];
      TellKeeps(s, id);
      assert steps[1..] == [] && Execute(cfg, Next(cfg, s, steps[0]), []) == Next(cfg, s, steps[0]);
    } else {
      steps := [Move(id, TimedOut), Move(id, TimedOut)];
      NextKeeps(cfg, s, steps[0]);
      TellKeeps(Next(cfg, s, steps[0]), id);
      ExecuteTwo(cfg, s, steps[0], steps[1]);
    }
  }

  /** Wedged, exactly: a half-open circuit stays half-open in every continuation if and only if no flight will report to it. */
  lemma HalfOpenForeverIff(cfg: Config, s: System, service: string)
    requires AllProbed(s) && HalfOpen(s, service)
    ensures (forall steps :: HalfOpen(Execute(cfg, s, steps), service))
       <==> forall id :: id in s.flights ==> !WillReport(s.flights[id], service)
  {
    assert Probed(s, service);
    hide Execute, WillReport, AllProbed;
    if forall id :: id in s.flights ==> !WillReport(s.flights[id], service) {
      forall steps ensures HalfOpen(Execute(cfg, s, steps), service) { WedgedForever(cfg, s, service, steps); }
    } else {
      var id :| id in s.flights && WillReport(s.flights[id], service);
      var steps := ReporterSettles(cfg, s, id, service);
    }
  }

  /** A request that takes the probe while nobody else will report wedges the circuit if and only if it cannot be built:
      then, and only then, the circuit is half-open in every continuation. */
  lemma ProbeWedgesIffUnbuildable(cfg: Config, s: System, id: nat, outcome: Downstream)
    requires AllProbed(s) && id in s.flights && s.flights[id].phase.Cleared?
    requires var service := s.flights[id].req.route.serviceName;
             && service in s.store.circuits && s.store.circuits[service].state.Open?
             && s.flights[id].now - s.store.circuits[service].openedAt >= cfg.OpenWindow()
             && forall other :: other in s.flights ==> !WillReport(s.flights[other], service)
    ensures var s1 := Next(cfg, s, Move(id, outcome));
            (forall steps :: HalfOpen(Execute(cfg, s1, steps), s.flights[id].req.route.serviceName))
            <==> !s.flights[id].req.wellFormed
  {
    hide Execute;
    var service := s.flights[id].req.route.serviceName;
    var s1 := Next(cfg, s, Move(id, outcome));
    NextKeeps(cfg, s, Move(id, outcome));
    assert s1.flights == s.flights[id := s.flights[id].(phase := Phase.Admitted)] && HalfOpen(s1, service);
    HalfOpenForeverIff(cfg, s1, service);
    hide Next, AllProbed, HalfOpen;
    assert WillReport(s1.flights[id], service) <==> s.flights[id].req.wellFormed;
  }
}
