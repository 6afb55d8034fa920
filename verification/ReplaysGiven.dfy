/** Replays are given: what has been stored for a request and has not expired is what its repetition gets. */
module ReplaysGiven {
  import opened Clock
  import opened Wrappers
  import opened Protection
  import opened IdempotencyCache
  import opened Routing
  import opened Gateway
  import opened ExactlyOnce
  import LateDeletes
  import Replays

  /** Every logged entry expires one TTL after it was stored, and remembers the body it was stored for. */
  ghost predicate StampedLog(cfg: Config, s: System) {
    forall k :: 0 <= k < |s.log| ==>
      && s.log[k].entry.expiresAt == s.log[k].at + cfg.IdempotencyTTL()
      && s.log[k].entry.bodyHash == BodyHash(s.log[k].req.body)
  }

  lemma KeepStamps(cfg: Config, s: System, id: nat)
    requires StampedLog(cfg, s) && id in s.flights && s.flights[id].phase.Storing?
    ensures StampedLog(cfg, Keep(cfg, s, id))
  {
    hide StoreStep, KeyOf;
  }

  lemma {:induction false} StampedForever(cfg: Config, bound: Duration, s: System, steps: seq<Step>)
    requires PromptRun(cfg, bound, s, steps) && LateDeletes.AllInTime(bound, s) && StampedLog(cfg, s)
    ensures LateDeletes.AllInTime(bound, Execute(cfg, s, steps)) && StampedLog(cfg, Execute(cfg, s, steps))
    decreases steps
  {
    hide LateDeletes.AllInTime, Keep, StoresInTime;
    if steps != [] {
      var step := steps[0];
      if step.Move? && step.id in s.flights && s.flights[step.id].phase.Storing? {
        LateDeletes.KeepKeepsInTime(cfg, bound, s, step.id);
        KeepStamps(cfg, s, step.id);
      } else {
        LateDeletes.OthersKeepInTime(cfg, bound, s, step);
      }
      hide Next, StampedLog;
      StampedForever(cfg, bound, Next(cfg, s, step), steps[1..]);
    }
  }

  /** A stored response that has not expired is what the cache holds under its key. */
  lemma UnexpiredIsCached(cfg: Config, bound: Duration, s: System, k: nat)
    requires Inv(cfg, s) && Replays.Backed(s) && LateDeletes.AllInTime(bound, s) && StampedLog(cfg, s)
    requires k < |s.log| && s.clock <= s.log[k].at + cfg.IdempotencyTTL()
    ensures KeyOf(s.log[k].req) in s.store.cache && s.store.cache[KeyOf(s.log[k].req)] == s.log[k].entry
  {
    hide KeyOf, ColonFree, Replays.Genuine, Replays.Honest, Flights, Harmless;
    var key := KeyOf(s.log[k].req);
    assert Covers(cfg, s, s.log[k]);
    assert Replays.Logged(s, key, s.store.cache[key]);
    var n :| 0 <= n < |s.log| && KeyOf(s.log[n].req) == key && s.log[n].entry == s.store.cache[key];
    assert LateDeletes.StoredInTime(bound, s, s.log[n]) && LateDeletes.StoredInTime(bound, s, s.log[k]);
    assert n == k;
  }

  /** In every interleaving that stores in under a bound of at most the cooldown and deletes only expired entries: a
      transactional request that comes to look, while a response stored for the same method, path, user and key has not
      expired, is answered with that response if its body is the same, and with a conflict if it is not. */
  lemma RepetitionIsAnswered(cfg: Config, bound: Duration, start: Instant, steps: seq<Step>, id: nat, k: nat, outcome: Downstream)
    requires bound <= cfg.Cooldown() && PromptRun(cfg, bound, Initial(start), steps) && CleanRun(cfg, Initial(start), steps)
    requires var s := Execute(cfg, Initial(start), steps);
             && id in s.flights && s.flights[id].phase.Looking? && k < |s.log|
             && SameRequest(s.flights[id].req, s.log[k].req) && s.clock <= s.log[k].at + cfg.IdempotencyTTL()
    ensures var s := Execute(cfg, Initial(start), steps);
            var s' := Next(cfg, s, Move(id, outcome));
            && id in s'.flights
            && s'.flights[id].phase == Done(if s.flights[id].req.body == s.log[k].req.body
                                            then FromCache(s.log[k].entry) else Refused(KeyConflict))
  {
    var s := Execute(cfg, Initial(start), steps);
    assert LateDeletes.AllInTime(bound, Initial(start)) && StampedLog(cfg, Initial(start));
    assert Inv(cfg, Initial(start)) && Replays.Backed(Initial(start));
    hide Execute, PromptRun, CleanRun, Inv, Replays.Backed, LateDeletes.AllInTime, StampedLog;
    InvariantHolds(cfg, bound, Initial(start), steps);
    Replays.BackedForever(cfg, Initial(start), steps);
    StampedForever(cfg, bound, Initial(start), steps);
    UnexpiredIsCached(cfg, bound, s, k);
    CachedIsAnswered(cfg, s, id, k, outcome);
  }

  lemma CachedIsAnswered(cfg: Config, s: System, id: nat, k: nat, outcome: Downstream)
    requires Inv(cfg, s) && StampedLog(cfg, s)
    requires id in s.flights && s.flights[id].phase.Looking? && k < |s.log|
    requires SameRequest(s.flights[id].req, s.log[k].req) && s.clock <= s.log[k].at + cfg.IdempotencyTTL()
    requires KeyOf(s.log[k].req) in s.store.cache && s.store.cache[KeyOf(s.log[k].req)] == s.log[k].entry
    ensures var s' := Next(cfg, s, Move(id, outcome));
            && id in s'.flights
            && s'.flights[id].phase == Done(if s.flights[id].req.body == s.log[k].req.body
                                            then FromCache(s.log[k].entry) else Refused(KeyConflict))
  {
    SaneFlight(cfg, s, id);
    assert KeyOf(s.flights[id].req) == KeyOf(s.log[k].req);
    hide Inv, KeyOf;
  }
}
