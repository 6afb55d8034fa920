/** What is left of exactly-once if lookups may delete anything, at any time: the guard alone. */
module LateDeletes {
  import opened Clock
  import opened Wrappers
  import opened Protection
  import opened IdempotencyCache
  import opened Routing
  import opened Gateway
  import opened ExactlyOnce
  import opened ForwardedLimits

  predicate Punctual(s: System, f: Flight) {
    && f.now <= s.clock
    && (f.phase.Reporting? || f.phase.Storing? ==> f.now <= f.phase.at <= s.clock)
    && (f.phase.Storing? ==> f.req.route.transactional)
  }

  /** A logged response was stored in time by a request that has passed the guard and is done. */
  predicate StoredInTime(bound: Duration, s: System, e: Stored) {
    && e.id in s.flights && s.flights[e.id].req == e.req && s.flights[e.id].now == e.start
    && s.flights[e.id].phase.Done? && PassedGuard(s.flights[e.id])
    && e.start <= e.at < e.start + bound && e.at <= s.clock
  }

  /** Responses stored for one user, whatever the request, are more than a TTL apart. */
  ghost predicate UserOncePerTTL(cfg: Config, log: seq<Stored>) {
    forall i, j :: 0 <= i < j < |log| && log[i].req.user == log[j].req.user ==> log[j].at > log[i].at + cfg.IdempotencyTTL()
  }

  ghost predicate AllInTime(bound: Duration, s: System) {
    && (forall id :: id in s.flights ==> Punctual(s, s.flights[id]))
    && (forall k :: 0 <= k < |s.log| ==> StoredInTime(bound, s, s.log[k]))
  }

  lemma OneMovedInTime(bound: Duration, s: System, s': System, id: nat)
    requires AllInTime(bound, s) && s'.log == s.log && s'.clock == s.clock && id in s.flights
    requires id in s'.flights && s'.flights == s.flights[id := s.flights[id].(phase := s'.flights[id].phase)]
    requires Punctual(s', s'.flights[id])
    requires s.flights[id].phase.Done? ==> s'.flights[id] == s.flights[id]
    ensures AllInTime(bound, s')
  {
    hide PassedGuard;
    assert forall i :: i in s.flights ==> Punctual(s, s.flights[i]);
    forall k | 0 <= k < |s'.log| ensures StoredInTime(bound, s', s'.log[k]) { assert StoredInTime(bound, s, s.log[k]); }
  }

  lemma MoveKeepsInTime(cfg: Config, bound: Duration, s: System, id: nat, outcome: Downstream)
    requires AllInTime(bound, s) && id in s.flights && !s.flights[id].phase.Storing?
    ensures AllInTime(bound, Advance(cfg, s, id, outcome)) && Advance(cfg, s, id, outcome).log == s.log
  {
    assert Punctual(s, s.flights[id]);
    hide LimiterStep, GuardStep, CircuitStep, RecordStep, CacheVerdict, ReportOf, KeyOf, PassedGuard, AllInTime;
    OneMovedInTime(bound, s, Advance(cfg, s, id, outcome), id);
  }

  lemma OthersKeepInTime(cfg: Config, bound: Duration, s: System, step: Step)
    requires AllInTime(bound, s)
    requires step.Move? && step.id in s.flights ==> !s.flights[step.id].phase.Storing?
    ensures AllInTime(bound, Next(cfg, s, step)) && Next(cfg, s, step).log == s.log
  {
    hide Advance, PassedGuard, AfterCleanup;
    if step.Move? && step.id in s.flights { MoveKeepsInTime(cfg, bound, s, step.id, step.outcome); }
  }

  lemma KeepKeepsInTime(cfg: Config, bound: Duration, s: System, id: nat)
    requires AllInTime(bound, s) && id in s.flights && s.flights[id].phase.Storing? && StoresInTime(bound, s, id)
    ensures AllInTime(bound, Keep(cfg, s, id))
  {
    hide StoreStep, KeyOf, EntryOf;
    var s' := Keep(cfg, s, id);
    forall k | 0 <= k < |s'.log| ensures StoredInTime(bound, s', s'.log[k]) {
      if k < |s.log| { assert StoredInTime(bound, s, s.log[k]); } else { assert Punctual(s, s.flights[id]); }
    }
    assert forall i :: i in s.flights ==> Punctual(s, s.flights[i]);
  }

  /** The new response dates from a request a whole cooldown after every other one of the user. */
  lemma KeepKeepsApart(cfg: Config, bound: Duration, s: System, id: nat)
    requires bound + cfg.IdempotencyTTL() <= cfg.Cooldown()
    requires AllInTime(bound, s) && Spaced(cfg, s) && UserOncePerTTL(cfg, s.log)
    requires id in s.flights && s.flights[id].phase.Storing? && StoresInTime(bound, s, id)
    ensures UserOncePerTTL(cfg, Keep(cfg, s, id).log)
  {
    hide StoreStep, KeyOf, EntryOf;
    var f, s' := s.flights[id], Keep(cfg, s, id);
    assert Punctual(s, f) && PassedGuard(f);
    forall k | 0 <= k < |s.log| && s.log[k].req.user == f.req.user
      ensures f.phase.at > s.log[k].at + cfg.IdempotencyTTL()
    {
      assert StoredInTime(bound, s, s.log[k]);
      assert Apart(cfg, s.log[k].start, f.now);
    }
  }

  lemma {:induction false} InTimeForever(cfg: Config, bound: Duration, s: System, steps: seq<Step>)
    requires bound + cfg.IdempotencyTTL() <= cfg.Cooldown() && PromptRun(cfg, bound, s, steps)
    requires AllInTime(bound, s) && Spaced(cfg, s) && Typed(s) && UserOncePerTTL(cfg, s.log)
    ensures AllInTime(bound, Execute(cfg, s, steps)) && UserOncePerTTL(cfg, Execute(cfg, s, steps).log)
    decreases steps
  {
    hide AllInTime, Spaced, Typed, UserOncePerTTL, Keep, StoresInTime;
    if steps != [] {
      var step := steps[0];
      SpacedNext(cfg, s, step);
      if step.Move? && step.id in s.flights && s.flights[step.id].phase.Storing? {
        KeepKeepsInTime(cfg, bound, s, step.id);
        KeepKeepsApart(cfg, bound, s, step.id);
      } else {
        OthersKeepInTime(cfg, bound, s, step);
      }
      hide Next;
      InTimeForever(cfg, bound, Next(cfg, s, step), steps[1..]);
    }
  }

  /** With no time to store in, nothing has been stored and nobody may store. */
  lemma NothingInTime(bound: Duration, s: System)
    requires bound <= 0 && AllInTime(bound, s)
    ensures s.log == []
    ensures forall id :: id in s.flights && StoresInTime(bound, s, id) ==> !s.flights[id].phase.Storing?
  {
    assert forall id :: id in s.flights ==> Punctual(s, s.flights[id]);
    if s.log != [] { TooLate(bound, s, s.log[0]); }
  }

  lemma TooLate(bound: Duration, s: System, e: Stored)
    requires bound <= 0
    ensures !StoredInTime(bound, s, e)
  {
  }

  lemma {:induction false} NothingStored(cfg: Config, bound: Duration, s: System, steps: seq<Step>)
    requires bound <= 0 && PromptRun(cfg, bound, s, steps) && AllInTime(bound, s)
    ensures Execute(cfg, s, steps).log == []
    decreases steps
  {
    hide AllInTime, Next, StoresInTime;
    NothingInTime(bound, s);
    if steps != [] {
      OthersKeepInTime(cfg, bound, s, steps[0]);
      NothingStored(cfg, bound, Next(cfg, s, steps[0]), steps[1..]);
    }
  }

  /** If the cooldown outlasts bound and TTL together, responses stored for one user are more than a TTL apart in every
      prompt run, whatever the lookups delete and whatever the requests are. */
  lemma GuardAloneSuffices(cfg: Config, bound: Duration, start: Instant, steps: seq<Step>)
    requires bound <= 0 || bound + cfg.IdempotencyTTL() <= cfg.Cooldown()
    requires PromptRun(cfg, bound, Initial(start), steps)
    ensures UserOncePerTTL(cfg, Execute(cfg, Initial(start), steps).log)
  {
    if bound <= 0 {
      NothingStored(cfg, bound, Initial(start), steps);
    } else {
      InTimeForever(cfg, bound, Initial(start), steps);
    }
  }
}
