/** What the guard guarantees of whole interleaved runs: forwarded transactions obey the cooldown and the daily limit. */
module ForwardedLimits {
  import opened Clock
  import opened Wrappers
  import opened KeyedStore
  import opened Protection
  import opened IdempotencyCache
  import opened Routing
  import opened Gateway
  import opened Sums
  import TransactionGuard

  /** Past the guard, whatever became of it: forwarded, or refused by the circuit, which comes after the guard. */
  predicate PassedGuard(f: Flight) {
    f.req.route.transactional &&
    match f.phase
    case Cleared | Admitted => true
    case Reporting(_, _) => true
    case Storing(_, _) => true
    case Done(answer) => answer.Delivered? || answer.Unbuildable? || answer == Refused(CircuitOpen)
    case _ => false
  }

  /** Sent downstream. */
  predicate Forwarded(f: Flight) {
    f.req.route.transactional &&
    (f.phase.Admitted? || f.phase.Reporting? || f.phase.Storing? || (f.phase.Done? && f.phase.answer.Delivered?))
  }

  function GuardOf(s: System, user: string): TransactionGuard.GuardState {
    if user in s.store.guard then s.store.guard[user] else TransactionGuard.GuardState(None, None, 0)
  }

  function PassedOn(s: System, user: string, date: int): set<nat> {
    set id | id in s.flights && PassedGuard(s.flights[id]) && s.flights[id].req.user == user && s.flights[id].today == date
  }

  ghost predicate Spaced(cfg: Config, s: System) {
    && (forall id :: id in s.flights && PassedGuard(s.flights[id]) ==>
          var last := GuardOf(s, s.flights[id].req.user).last; last.Some? && s.flights[id].now <= last.value)
    && (forall i, j :: i in s.flights && j in s.flights && i != j ==>
          PassedGuard(s.flights[i]) && PassedGuard(s.flights[j]) && s.flights[i].req.user == s.flights[j].req.user ==>
            Apart(cfg, s.flights[i].now, s.flights[j].now))
  }

  /** The user's guard is where the given calls take it, and who has passed it are whom it admitted among them. */
  ghost predicate Told(cfg: Config, s: System, user: string, calls: seq<TransactionGuard.GuardCall>) {
    && Lookup(s.store.guard, user) == TransactionGuard.StateAfter(calls, cfg.Cooldown(), cfg.dailyLimit)
    && forall date :: |PassedOn(s, user, date)|
         == TransactionGuard.AdmittedOn(calls, TransactionGuard.Verdicts(calls, cfg.Cooldown(), cfg.dailyLimit), date, |calls|)
  }

  /** Nobody passed the guard or fell back behind it, and the guard is as it was. */
  ghost predicate SamePassed(s: System, s': System) {
    && s'.store.guard == s.store.guard && s.flights.Keys <= s'.flights.Keys
    && forall id :: id in s'.flights ==>
         if id in s.flights
         then s'.flights[id] == s.flights[id].(phase := s'.flights[id].phase)
              && (PassedGuard(s'.flights[id]) <==> PassedGuard(s.flights[id]))
         else !PassedGuard(s'.flights[id])
  }

  lemma SamePassedKeeps(cfg: Config, s: System, s': System)
    requires SamePassed(s, s')
    ensures Spaced(cfg, s) ==> Spaced(cfg, s')
    ensures forall user, calls :: Told(cfg, s, user, calls) ==> Told(cfg, s', user, calls)
  {
    hide PassedGuard, Apart;
    assert forall user :: GuardOf(s', user) == GuardOf(s, user);
    assert forall user, date :: PassedOn(s', user, date) == PassedOn(s, user, date);
    hide PassedOn, GuardOf;
  }

  lemma OneMoved(s: System, s': System, id: nat)
    requires id in s.flights && s'.store.guard == s.store.guard
    requires id in s'.flights && s'.flights == s.flights[id := s.flights[id].(phase := s'.flights[id].phase)]
    requires PassedGuard(s'.flights[id]) <==> PassedGuard(s.flights[id])
    ensures SamePassed(s, s')
  {
    hide PassedGuard;
  }

  lemma MoveKeepsPassed(cfg: Config, s: System, id: nat, outcome: Downstream)
    requires id in s.flights && !s.flights[id].phase.Missed?
    ensures SamePassed(s, Advance(cfg, s, id, outcome))
  {
    hide LimiterStep, CircuitStep, RecordStep, StoreStep, CacheVerdict, ReportOf, Stores, SamePassed, KeyOf;
    var f, s' := s.flights[id], Advance(cfg, s, id, outcome);
    StepsKeepGuard(cfg, s, f);
    match f.phase {
      case Reporting(_, _) => OneMoved(s, s', id);
      case Storing(_, _) => OneMoved(s, s', id);
      case Done(_) => OneMoved(s, s', id);
      case _ => OneMoved(s, s', id);
    }
  }

  /** Only the guard lets a request past the guard. */
  lemma OthersKeepPassed(cfg: Config, s: System, step: Step)
    requires step.Move? && step.id in s.flights ==> !s.flights[step.id].phase.Missed?
    ensures SamePassed(s, Next(cfg, s, step))
  {
    if step.Move? && step.id in s.flights { MoveKeepsPassed(cfg, s, step.id, step.outcome); }
    hide Advance, AfterCleanup;
  }

  lemma StepsKeepGuard(cfg: Config, s: System, f: Flight)
    ensures LimiterStep(cfg, s.store, f.req, f.now).0.guard == s.store.guard
    ensures CircuitStep(cfg, s.store, f.req, f.now).0.guard == s.store.guard
    ensures var (_, limited) := LimiterStep(cfg, s.store, f.req, f.now); limited.Some? ==> limited.value.RateLimited?
    ensures var (_, refused) := CircuitStep(cfg, s.store, f.req, f.now); refused.Some? ==> refused.value == CircuitOpen
    ensures f.phase.Reporting? ==>
      forall failed :: RecordStep(s.store, f.req.route.serviceName, failed, f.phase.report.timeout, f.phase.at).guard == s.store.guard
    ensures f.phase.Storing? ==>
      StoreStep(cfg, s.store, KeyOf(f.req), BodyHash(f.req.body), f.phase.report.response, f.phase.at).guard == s.store.guard
    ensures CacheVerdict(s.store, f.req, f.now).Some? ==>
      var verdict := CacheVerdict(s.store, f.req, f.now).value; verdict == Denied(KeyConflict) || verdict.Replay?
  {
  }

  /** What one guard call does to the guard and to who has passed it. */
  ghost predicate Judged(cfg: Config, s: System, s': System, id: nat)
    requires id in s.flights
  {
    && id in s'.flights && s'.flights == s.flights[id := s.flights[id].(phase := s'.flights[id].phase)]
    && var f := s.flights[id];
       var last, last' := GuardOf(s, f.req.user).last, GuardOf(s', f.req.user).last;
       && !PassedGuard(f)
       && (if PassedGuard(s'.flights[id]) then last' == Some(f.now) && (last.Some? ==> last.value + cfg.Cooldown() <= f.now)
           else last' == last)
       && forall user :: user != f.req.user ==> GuardOf(s', user) == GuardOf(s, user)
  }

  lemma GuardJudges(cfg: Config, s: System, id: nat)
    requires id in s.flights && s.flights[id].phase.Missed? && s.flights[id].req.route.transactional
    ensures Judged(cfg, s, Guard(cfg, s, id), id)
  {
    hide TransactionGuard.EffectiveLimit;
  }

  lemma JudgedKeepsSpaced(cfg: Config, s: System, s': System, id: nat)
    requires Spaced(cfg, s) && id in s.flights && Judged(cfg, s, s', id)
    ensures Spaced(cfg, s')
  {
    hide PassedGuard, GuardOf, TransactionGuard.EffectiveLimit;
  }

  /** Whoever passes is new to the set of the request's user and date; no other set changes. */
  lemma PassedAfter(s: System, s': System, id: nat, user: string)
    requires id in s.flights && id in s'.flights && s'.flights == s.flights[id := s.flights[id].(phase := s'.flights[id].phase)]
    requires !PassedGuard(s.flights[id])
    ensures var passes := PassedGuard(s'.flights[id]) && user == s.flights[id].req.user;
            forall date :: PassedOn(s', user, date)
              == if passes && date == s.flights[id].today then PassedOn(s, user, date) + {id} else PassedOn(s, user, date)
    ensures forall date :: id !in PassedOn(s, user, date)
  {
    hide PassedGuard;
  }

  // ---- Whole runs ----

  /** Only transactional requests with a key get as far as the cache and the guard. */
  ghost predicate Typed(s: System) {
    forall id :: id in s.flights && (s.flights[id].phase.Looking? || s.flights[id].phase.Evicting? || s.flights[id].phase.Missed?) ==>
      s.flights[id].req.route.transactional
  }

  lemma TypedNext(cfg: Config, s: System, step: Step)
    requires Typed(s)
    ensures Typed(Next(cfg, s, step))
  {
    hide LimiterStep, GuardStep, CircuitStep, RecordStep, StoreStep, CacheVerdict, ReportOf, Stores;
  }

  lemma MissedIsTransactional(s: System, id: nat)
    requires Typed(s) && id in s.flights && s.flights[id].phase.Missed?
    ensures s.flights[id].req.route.transactional
  {
  }

  lemma SpacedNext(cfg: Config, s: System, step: Step)
    requires Spaced(cfg, s) && Typed(s)
    ensures Spaced(cfg, Next(cfg, s, step)) && Typed(Next(cfg, s, step))
  {
    hide Spaced, Told, Typed, SamePassed, Guard, Judged;
    TypedNext(cfg, s, step);
    if step.Move? && step.id in s.flights && s.flights[step.id].phase.Missed? {
      MissedIsTransactional(s, step.id);
      GuardJudges(cfg, s, step.id);
      JudgedKeepsSpaced(cfg, s, Next(cfg, s, step), step.id);
    } else {
      OthersKeepPassed(cfg, s, step);
      SamePassedKeeps(cfg, s, Next(cfg, s, step));
    }
  }

  lemma {:induction false} SpacedForever(cfg: Config, s: System, steps: seq<Step>)
    requires Spaced(cfg, s) && Typed(s)
    ensures Spaced(cfg, Execute(cfg, s, steps))
    decreases steps
  {
    hide Spaced, Typed, Next;
    if steps != [] {
      SpacedNext(cfg, s, steps[0]);
      SpacedForever(cfg, Next(cfg, s, steps[0]), steps[1..]);
    }
  }

  // ---- The guard's calls in a run ----

  /** The user's call of the guard that a step makes, if any. */
  function CallMade(s: System, step: Step, user: string): seq<TransactionGuard.GuardCall> {
    if step.Move? && step.id in s.flights && s.flights[step.id].phase.Missed? && s.flights[step.id].req.user == user
    then [TransactionGuard.GuardCall(s.flights[step.id].now, s.flights[step.id].today)] else []
  }

  /** The user's calls of the guard in a run, in their order. */
  function GuardCalls(cfg: Config, s: System, steps: seq<Step>, user: string): seq<TransactionGuard.GuardCall>
    decreases steps
  {
    if steps == [] then [] else CallMade(s, steps[0], user) + GuardCalls(cfg, Next(cfg, s, steps[0]), steps[1..], user)
  }

  lemma {:induction false} AdmittedOnPrefix(calls: seq<TransactionGuard.GuardCall>, call: TransactionGuard.GuardCall,
                                            verdicts: seq<bool>, verdict: bool, date: int, k: nat)
    requires k <= |calls| == |verdicts|
    ensures TransactionGuard.AdmittedOn(calls + [call], verdicts + [verdict], date, k)
         == TransactionGuard.AdmittedOn(calls, verdicts, date, k)
  {
    if k > 0 { AdmittedOnPrefix(calls, call, verdicts, verdict, date, k - 1); }
  }

  /** What the guard answers a request is its verdict on one more call. */
  lemma GuardStepIsCall(cfg: Config, s: System, id: nat, calls: seq<TransactionGuard.GuardCall>)
    requires id in s.flights && s.flights[id].phase.Missed? && s.flights[id].req.route.transactional
    requires Lookup(s.store.guard, s.flights[id].req.user) == TransactionGuard.StateAfter(calls, cfg.Cooldown(), cfg.dailyLimit)
    ensures var f, s' := s.flights[id], Guard(cfg, s, id);
            var longer := calls + [TransactionGuard.GuardCall(f.now, f.today)];
            && Lookup(s'.store.guard, f.req.user) == TransactionGuard.StateAfter(longer, cfg.Cooldown(), cfg.dailyLimit)
            && TransactionGuard.Verdicts(longer, cfg.Cooldown(), cfg.dailyLimit)
               == TransactionGuard.Verdicts(calls, cfg.Cooldown(), cfg.dailyLimit) + [PassedGuard(s'.flights[id])]
  {
    hide TransactionGuard.EffectiveLimit;
    var f := s.flights[id];
    var longer := calls + [TransactionGuard.GuardCall(f.now, f.today)];
    assert longer[..|longer| - 1] == calls;
  }

  lemma GuardTold(cfg: Config, s: System, id: nat, user: string, calls: seq<TransactionGuard.GuardCall>)
    requires id in s.flights && s.flights[id].phase.Missed? && s.flights[id].req.route.transactional
    requires Told(cfg, s, user, calls)
    ensures Told(cfg, Guard(cfg, s, id), user, calls + CallMade(s, Move(id, TimedOut), user))
  {
    var f, s' := s.flights[id], Guard(cfg, s, id);
    GuardJudges(cfg, s, id);
    PassedAfter(s, s', id, user);
    if f.req.user == user {
      GuardStepIsCall(cfg, s, id, calls);
      hide Guard, PassedGuard, PassedOn, GuardOf, Judged;
      OwnCount(cfg, s, s', id, calls);
    } else {
      GuardOfOther(cfg, s, id, user);
      assert calls + [] == calls;
      hide Guard, PassedGuard, PassedOn, GuardOf, Judged;
    }
  }

  lemma GuardOfOther(cfg: Config, s: System, id: nat, user: string)
    requires id in s.flights && s.flights[id].req.user != user
    ensures Lookup(Guard(cfg, s, id).store.guard, user) == Lookup(s.store.guard, user)
  {
    hide TransactionGuard.Allow;
  }

  lemma OwnCount(cfg: Config, s: System, s': System, id: nat, calls: seq<TransactionGuard.GuardCall>)
    requires id in s.flights && id in s'.flights && Told(cfg, s, s.flights[id].req.user, calls)
    requires var longer := calls + [TransactionGuard.GuardCall(s.flights[id].now, s.flights[id].today)];
             TransactionGuard.Verdicts(longer, cfg.Cooldown(), cfg.dailyLimit)
             == TransactionGuard.Verdicts(calls, cfg.Cooldown(), cfg.dailyLimit) + [PassedGuard(s'.flights[id])]
    requires s'.flights == s.flights[id := s.flights[id].(phase := s'.flights[id].phase)] && !PassedGuard(s.flights[id])
    ensures var f := s.flights[id];
            var longer := calls + [TransactionGuard.GuardCall(f.now, f.today)];
            forall date :: |PassedOn(s', f.req.user, date)|
              == TransactionGuard.AdmittedOn(longer, TransactionGuard.Verdicts(longer, cfg.Cooldown(), cfg.dailyLimit), date, |longer|)
  {
    var f := s.flights[id];
    var call := TransactionGuard.GuardCall(f.now, f.today);
    var longer := calls + [call];
    var v, v' := TransactionGuard.Verdicts(calls, cfg.Cooldown(), cfg.dailyLimit), TransactionGuard.Verdicts(longer, cfg.Cooldown(), cfg.dailyLimit);
    PassedAfter(s, s', id, f.req.user);
    hide PassedGuard, PassedOn, TransactionGuard.Verdicts, TransactionGuard.StateAfter;
    forall date ensures |PassedOn(s', f.req.user, date)| == TransactionGuard.AdmittedOn(longer, v', date, |longer|) {
      AdmittedOnPrefix(calls, call, v, PassedGuard(s'.flights[id]), date, |calls|);
    }
  }

  lemma {:induction false} ToldForever(cfg: Config, s: System, steps: seq<Step>, user: string, calls: seq<TransactionGuard.GuardCall>)
    requires Told(cfg, s, user, calls) && Typed(s)
    ensures Told(cfg, Execute(cfg, s, steps), user, calls + GuardCalls(cfg, s, steps, user))
    decreases steps
  {
    hide Spaced, Told, Typed, SamePassed, Guard, Judged;
    if steps == [] {
      assert calls + [] == calls;
    } else {
      var step, made := steps[0], CallMade(s, steps[0], user);
      TypedNext(cfg, s, step);
      if step.Move? && step.id in s.flights && s.flights[step.id].phase.Missed? {
        MissedIsTransactional(s, step.id);
        GuardTold(cfg, s, step.id, user, calls);
      } else {
        OthersKeepPassed(cfg, s, step);
        SamePassedKeeps(cfg, s, Next(cfg, s, step));
        assert calls + made == calls;
      }
      assert Told(cfg, Next(cfg, s, step), user, calls + made);
      hide Next;
      ToldForever(cfg, Next(cfg, s, step), steps[1..], user, calls + made);
      assert calls + made + GuardCalls(cfg, Next(cfg, s, step), steps[1..], user) == calls + GuardCalls(cfg, s, steps, user);
    }
  }

  /** In every interleaving, two forwarded transactions of one user arrived at least the cooldown apart. */
  lemma ForwardedAreSpaced(cfg: Config, start: Instant, steps: seq<Step>, i: nat, j: nat)
    requires var flights := Execute(cfg, Initial(start), steps).flights;
             && i in flights && j in flights && i != j && Forwarded(flights[i]) && Forwarded(flights[j])
             && flights[i].req.user == flights[j].req.user
    ensures var flights := Execute(cfg, Initial(start), steps).flights;
            Apart(cfg, flights[i].now, flights[j].now)
  {
    SpacedForever(cfg, Initial(start), steps);
    hide Execute;
  }

  predicate RefusedByCircuit(f: Flight) { f.req.route.transactional && f.phase == Done(Refused(CircuitOpen)) }

  function ForwardedOn(s: System, user: string, date: int): set<nat> {
    set id | id in s.flights && Forwarded(s.flights[id]) && s.flights[id].req.user == user && s.flights[id].today == date
  }

  function RefusedByCircuitOn(s: System, user: string, date: int): set<nat> {
    set id | id in s.flights && RefusedByCircuit(s.flights[id]) && s.flights[id].req.user == user && s.flights[id].today == date
  }

  /** In every interleaving in which the dates of a user's calls of the guard are unbroken, the transactions forwarded for
      the user on any date, together with those the circuit refused, are at most the daily limit. */
  lemma ForwardedWithinDailyLimit(cfg: Config, start: Instant, steps: seq<Step>, user: string, date: int)
    requires TransactionGuard.Unbroken(TransactionGuard.DatesOf(GuardCalls(cfg, Initial(start), steps, user)))
    ensures var s := Execute(cfg, Initial(start), steps);
            |ForwardedOn(s, user, date)| + |RefusedByCircuitOn(s, user, date)| <= if cfg.dailyLimit > 0 then cfg.dailyLimit else 10
  {
    var s, calls := Execute(cfg, Initial(start), steps), GuardCalls(cfg, Initial(start), steps, user);
    StartTold(cfg, start, user);
    ToldForever(cfg, Initial(start), steps, user, []);
    assert [] + calls == calls;
    hide Execute, GuardCalls, ForwardedOn, RefusedByCircuitOn, PassedOn, TransactionGuard.EffectiveLimit;
    TransactionGuard.DailyLimitHolds(calls, cfg.Cooldown(), cfg.dailyLimit, date, |calls|);
    ForwardedArePassed(s, user, date);
  }

  lemma ForwardedArePassed(s: System, user: string, date: int)
    ensures |ForwardedOn(s, user, date)| + |RefusedByCircuitOn(s, user, date)| <= |PassedOn(s, user, date)|
  {
    var forwarded, refused, passed := ForwardedOn(s, user, date), RefusedByCircuitOn(s, user, date), PassedOn(s, user, date);
    ForwardedOrRefused(s);
    hide Forwarded, RefusedByCircuit, PassedGuard;
    assert forwarded !! refused;
    assert forwarded + refused <= passed;
    SubsetIsSmaller(forwarded + refused, passed);
  }

  lemma ForwardedOrRefused(s: System)
    ensures forall id :: id in s.flights ==>
      var f := s.flights[id];
      (Forwarded(f) || RefusedByCircuit(f) ==> PassedGuard(f)) && !(Forwarded(f) && RefusedByCircuit(f))
  {
  }

  lemma StartTold(cfg: Config, start: Instant, user: string)
    ensures Told(cfg, Initial(start), user, []) && Typed(Initial(start))
  {
    assert forall date :: PassedOn(Initial(start), user, date) == {};
  }
}
