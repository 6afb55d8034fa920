/** The interleaving system refines the service: a request run with nobody in between is handled as the service handles it. */
module Sequential {
  import opened Clock
  import opened Wrappers
  import opened KeyedStore
  import opened Protection
  import opened IdempotencyCache
  import opened Routing
  import opened Gateway

  /** Whole executions of one request alone, told by how the system looks after. */
  ghost predicate Leads(cfg: Config, s: System, s': System, id: nat, steps: seq<Step>) {
    && s' == Execute(cfg, s, steps)
    && id in s.flights && id in s'.flights
    && s'.flights == s.flights[id := s.flights[id].(phase := s'.flights[id].phase)]
    && forall i :: 0 <= i < |steps| ==> steps[i].Tick? || (steps[i].Move? && steps[i].id == id)
  }

  lemma OneStep(cfg: Config, s: System, id: nat, step: Step)
    requires id in s.flights && (step.Tick? || (step.Move? && step.id == id))
    ensures Leads(cfg, s, Next(cfg, s, step), id, [step])
  {
    hide LimiterStep, GuardStep, CircuitStep, RecordStep, StoreStep, CacheVerdict, ReportOf;
    assert [step][1..] == [];
    assert Execute(cfg, s, [step]) == Execute(cfg, Next(cfg, s, step), []);
  }

  lemma Then(cfg: Config, s: System, s1: System, s2: System, id: nat, steps: seq<Step>, more: seq<Step>)
    requires Leads(cfg, s, s1, id, steps) && Leads(cfg, s1, s2, id, more)
    ensures Leads(cfg, s, s2, id, steps + more)
  {
    ExecuteAppend(cfg, s, steps, more);
  }

  /** One more move of the request. */
  lemma AndMove(cfg: Config, s: System, s1: System, id: nat, steps: seq<Step>, outcome: Downstream) returns (s2: System, longer: seq<Step>)
    requires Leads(cfg, s, s1, id, steps)
    ensures s2 == Advance(cfg, s1, id, outcome) && Leads(cfg, s, s2, id, longer)
  {
    hide Advance;
    s2, longer := Next(cfg, s1, Move(id, outcome)), steps + [Move(id, outcome)];
    OneStep(cfg, s1, id, Move(id, outcome));
    Then(cfg, s, s1, s2, id, steps, [Move(id, outcome)]);
  }

  function PhaseAfter(decision: Decision): Phase {
    match decision
    case Denied(reason) => Done(Refused(reason))
    case Replay(cached) => Done(FromCache(cached))
    case Forward(_, _) => Admitted
  }

  /** From past the limiter to past the guard: the cache and guard steps make up `TransactionStep`. */
  lemma TransactionAlone(cfg: Config, s: System, id: nat, outcome: Downstream) returns (s': System, steps: seq<Step>)
    requires id in s.flights && s.flights[id].phase.Looking? && s.flights[id].req.idempotencyHeader != ""
    ensures Leads(cfg, s, s', id, steps) && s'.clock == s.clock && s'.log == s.log
    ensures var f := s.flights[id];
            var (store, decision) := TransactionStep(cfg, s.store, f.req, f.now, f.today);
            s'.store == store && s'.flights[id].phase == if decision.Forward? then Cleared else PhaseAfter(decision)
  {
    hide GuardStep, KeyOf;
    var f := s.flights[id];
    OneStep(cfg, s, id, Move(id, outcome));
    s', steps := Next(cfg, s, Move(id, outcome)), [Move(id, outcome)];
    if s'.flights[id].phase.Evicting? {
      s', steps := AndMove(cfg, s, s', id, steps, outcome);
    }
    if s'.flights[id].phase.Missed? {
      assert s'.store == s.store.(cache := AfterGet(s.store.cache, KeyOf(f.req), f.now));
      s', steps := AndMove(cfg, s, s', id, steps, outcome);
    }
  }

  lemma BeforeAlone(cfg: Config, s: System, id: nat, outcome: Downstream) returns (s': System, steps: seq<Step>)
    requires id in s.flights && s.flights[id].phase.Arrived?
    ensures Leads(cfg, s, s', id, steps) && s'.clock == s.clock && s'.log == s.log
    ensures var f := s.flights[id];
            var (store, decision) := Before(cfg, s.store, f.req, f.now, f.today);
            s'.store == store && s'.flights[id].phase == PhaseAfter(decision)
  {
    hide LimiterStep, CircuitStep, GuardStep, CacheVerdict, KeyOf;
    OneStep(cfg, s, id, Move(id, outcome));
    s', steps := Next(cfg, s, Move(id, outcome)), [Move(id, outcome)];
    if s'.flights[id].phase.Looking? {
      var s1, more := TransactionAlone(cfg, s', id, outcome);
      Then(cfg, s, s', s1, id, steps, more);
      s', steps := s1, steps + more;
    }
    if s'.flights[id].phase.Cleared? {
      s', steps := AndMove(cfg, s, s', id, steps, outcome);
    }
  }

  /** What the request adds to the log if it was admitted. */
  function LoggedBy(cfg: Config, id: nat, f: Flight, report: Report, later: Instant): seq<Stored> {
    if f.req.wellFormed && Stores(f.req, KeyOf(f.req), report.response)
    then [Stored(id, f.req, f.now, later, Stamped(cfg, report.response, BodyHash(f.req.body), later))]
    else []
  }

  lemma AfterAlone(cfg: Config, s: System, id: nat, outcome: Downstream, later: Instant) returns (s': System, steps: seq<Step>)
    requires id in s.flights && s.flights[id].phase.Admitted? && later >= s.clock
    ensures Leads(cfg, s, s', id, steps)
    ensures var req := s.flights[id].req;
            var report := ReportOf(req, outcome);
            var decision := if req.route.transactional then Forward(KeyOf(req), BodyHash(req.body)) else Forward("", "");
            && s'.store == (if req.wellFormed
                 then After(cfg, s.store, req, decision, report.response, report.timeout, report.transportFailure, later)
                 else s.store)
            && s'.flights[id].phase == Done(if req.wellFormed then Delivered(report.response) else Unbuildable)
            && s'.log == s.log + LoggedBy(cfg, id, s.flights[id], report, later) && s'.clock == later
  {
    hide ReportOf, RecordStep, StoreStep, KeyOf;
    var req := s.flights[id].req;
    OneStep(cfg, s, id, Tick(later));
    s', steps := AndMove(cfg, s, Next(cfg, s, Tick(later)), id, [Tick(later)], outcome);
    if req.wellFormed {
      KeyIsNotEmpty(req);
      s', steps := AndMove(cfg, s, s', id, steps, outcome);
      if s'.flights[id].phase.Storing? {
        s', steps := AndMove(cfg, s, s', id, steps, outcome);
      }
    }
  }

  lemma KeyIsNotEmpty(req: Request)
    ensures KeyOf(req) != ""
  {
    assert |KeyOf(req)| >= 3;
  }

  /** Run alone, a request takes the stores exactly where `Handle` takes them, and gets the answer `Handle` gives. */
  lemma AloneIsHandled(cfg: Config, s: System, id: nat, outcome: Downstream, later: Instant) returns (s': System, steps: seq<Step>)
    requires id in s.flights && s.flights[id].phase.Arrived? && later >= s.clock
    ensures Leads(cfg, s, s', id, steps)
    ensures var f := s.flights[id];
            (s'.store, s'.flights[id].phase)
            == var (store, answer) := Handle(cfg, s.store, Arrival(f.req, f.now, f.today, outcome, later)); (store, Done(answer))
    ensures var f := s.flights[id];
            s'.log == s.log + if Before(cfg, s.store, f.req, f.now, f.today).1.Forward?
                              then LoggedBy(cfg, id, f, ReportOf(f.req, outcome), later) else []
    ensures var f := s.flights[id];
            s'.clock == if Before(cfg, s.store, f.req, f.now, f.today).1.Forward? then later else s.clock
  {
    hide LimiterStep, TransactionStep, CircuitStep, ReportOf, After;
    s', steps := BeforeAlone(cfg, s, id, outcome);
    var f := s.flights[id];
    if s'.flights[id].phase.Admitted? {
      var s1, more := AfterAlone(cfg, s', id, outcome, later);
      Then(cfg, s, s', s1, id, steps, more);
      s', steps := s1, steps + more;
      ForwardCarriesKey(cfg, s.store, f.req, f.now, f.today);
    }
  }

  lemma ForwardCarriesKey(cfg: Config, s: State, req: Request, now: Instant, today: int)
    ensures var decision := Before(cfg, s, req, now, today).1;
            decision.Forward? ==>
              decision == if req.route.transactional then Forward(KeyOf(req), BodyHash(req.body)) else Forward("", "")
  {
  }
}
