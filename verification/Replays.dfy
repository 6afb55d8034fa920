/** Every replay repeats an earlier success delivered for the same key and the same body. */
module Replays {
  import opened Clock
  import opened Wrappers
  import opened Protection
  import opened IdempotencyCache
  import opened Routing
  import opened Gateway
  import ExactlyOnce

  /** The response as the client sees it. */
  predicate SameToClient(c: CachedResponse, d: CachedResponse) {
    c.status == d.status && c.headers == d.headers && c.body == d.body
  }

  /** A logged response is the success its own request was answered with. */
  predicate Genuine(s: System, e: Stored) {
    && Successful(e.entry.status) && e.entry.bodyHash == BodyHash(e.req.body)
    && e.id in s.flights && s.flights[e.id].req == e.req
    && s.flights[e.id].phase.Done? && s.flights[e.id].phase.answer.Delivered?
    && SameToClient(e.entry, s.flights[e.id].phase.answer.response)
  }

  ghost predicate Logged(s: System, key: Digest, entry: CachedResponse) {
    exists k :: 0 <= k < |s.log| && KeyOf(s.log[k].req) == key && s.log[k].entry == entry
  }

  predicate Honest(f: Flight) {
    && (f.phase.Storing? ==> Successful(f.phase.report.response.status))
    && (f.phase.Done? && f.phase.answer.FromCache? ==> f.phase.answer.cached.bodyHash == BodyHash(f.req.body))
  }

  ghost predicate Backed(s: System) {
    && (forall key :: key in s.store.cache ==> Logged(s, key, s.store.cache[key]))
    && (forall k :: 0 <= k < |s.log| ==> Genuine(s, s.log[k]))
    && (forall id :: id in s.flights ==> Honest(s.flights[id]))
    && (forall id :: id in s.flights && s.flights[id].phase.Done? && s.flights[id].phase.answer.FromCache? ==>
          Logged(s, KeyOf(s.flights[id].req), s.flights[id].phase.answer.cached))
  }

  /** A step that only forgets cache entries and moves one flight that was not done. */
  lemma ForgettingMove(s: System, s': System, id: nat)
    requires Backed(s) && s'.log == s.log
    requires forall key :: key in s'.store.cache ==> key in s.store.cache && s'.store.cache[key] == s.store.cache[key]
    requires forall i :: i in s.flights && i != id ==> i in s'.flights && s'.flights[i] == s.flights[i]
    requires s'.flights.Keys <= s.flights.Keys + {id}
    requires id in s.flights ==> id in s'.flights && (s.flights[id].phase.Done? ==> s'.flights[id] == s.flights[id])
    requires id in s'.flights ==> Honest(s'.flights[id])
    requires id in s'.flights && s'.flights[id].phase.Done? && s'.flights[id].phase.answer.FromCache? ==>
               Logged(s, KeyOf(s'.flights[id].req), s'.flights[id].phase.answer.cached)
    ensures Backed(s')
  {
    hide Honest, KeyOf, SameToClient;
    forall key, entry | Logged(s, key, entry) ensures Logged(s', key, entry) {
      var k :| 0 <= k < |s.log| && KeyOf(s.log[k].req) == key && s.log[k].entry == entry;
      assert s'.log[k] == s.log[k];
    }
    forall k | 0 <= k < |s'.log| ensures Genuine(s', s'.log[k]) { assert Genuine(s, s.log[k]); }
  }

  lemma LookBacked(s: System, id: nat)
    requires Backed(s) && id in s.flights
    ensures var f := Look(s, id).flights[id];
            Honest(f) && (f.phase.Done? && f.phase.answer.FromCache? ==> Logged(s, KeyOf(f.req), f.phase.answer.cached))
  {
  }

  lemma KeepBacked(cfg: Config, s: System, id: nat)
    requires Backed(s) && id in s.flights && s.flights[id].phase.Storing?
    ensures Backed(Keep(cfg, s, id))
  {
    hide KeyOf;
    var f, s', n := s.flights[id], Keep(cfg, s, id), |s.log|;
    forall key, entry | Logged(s, key, entry) ensures Logged(s', key, entry) {
      var k :| 0 <= k < |s.log| && KeyOf(s.log[k].req) == key && s.log[k].entry == entry;
      assert s'.log[k] == s.log[k];
    }
    assert s'.log[n].entry == EntryOf(cfg, f) && KeyOf(s'.log[n].req) == KeyOf(f.req);
    assert Honest(f);
    forall k | 0 <= k < |s'.log| ensures Genuine(s', s'.log[k]) {
      assert k < n ==> Genuine(s, s.log[k]);
    }
    forall key | key in s'.store.cache ensures Logged(s', key, s'.store.cache[key]) {
      assert key != KeyOf(f.req) ==> Logged(s, key, s.store.cache[key]);
    }
  }

  lemma StepsKeepCache(cfg: Config, s: System, f: Flight)
    ensures LimiterStep(cfg, s.store, f.req, f.now).0.cache == s.store.cache
    ensures GuardStep(cfg, s.store, f.req, f.now, f.today).0.cache == s.store.cache
    ensures CircuitStep(cfg, s.store, f.req, f.now).0.cache == s.store.cache
    ensures f.phase.Reporting? ==>
      forall failed :: RecordStep(s.store, f.req.route.serviceName, failed, f.phase.report.timeout, f.phase.at).cache == s.store.cache
  {
  }

  lemma MoveBacked(cfg: Config, s: System, id: nat, outcome: Downstream)
    requires Backed(s) && id in s.flights
    ensures Backed(Advance(cfg, s, id, outcome))
  {
    hide LimiterStep, GuardStep, CircuitStep, RecordStep, ReportOf, Backed, KeyOf;
    var f, s' := s.flights[id], Advance(cfg, s, id, outcome);
    match f.phase {
      case Storing(_, _) => KeepBacked(cfg, s, id);
      case Looking => LookBacked(s, id); ForgettingMove(s, s', id);
      case Done(_) =>
      case _ => StepsKeepCache(cfg, s, f); ForgettingMove(s, s', id);
    }
  }

  lemma NextBacked(cfg: Config, s: System, step: Step)
    requires Backed(s)
    ensures Backed(Next(cfg, s, step))
  {
    hide Advance, Backed;
    var s' := Next(cfg, s, step);
    match step {
      case Move(id, outcome) => if id in s.flights { MoveBacked(cfg, s, id, outcome); }
      case Arrive(id, _, _) => if id !in s.flights { ForgettingMove(s, s', id); }
      case Tick(_) => SameFlights(s, s');
      case Cleanup(_) => SameFlights(s, s');
    }
  }

  lemma SameFlights(s: System, s': System)
    requires Backed(s) && s'.log == s.log && s'.flights == s.flights
    requires forall key :: key in s'.store.cache ==> key in s.store.cache && s'.store.cache[key] == s.store.cache[key]
    ensures Backed(s')
  {
    hide Honest, KeyOf, SameToClient;
    forall key, entry | Logged(s, key, entry) ensures Logged(s', key, entry) {
      var k :| 0 <= k < |s.log| && KeyOf(s.log[k].req) == key && s.log[k].entry == entry;
      assert s'.log[k] == s.log[k];
    }
    forall k | 0 <= k < |s'.log| ensures Genuine(s', s'.log[k]) { assert Genuine(s, s.log[k]); }
  }

  lemma {:induction false} BackedForever(cfg: Config, s: System, steps: seq<Step>)
    requires Backed(s)
    ensures Backed(Execute(cfg, s, steps))
    decreases steps
  {
    hide Next, Backed;
    if steps != [] {
      NextBacked(cfg, s, steps[0]);
      BackedForever(cfg, Next(cfg, s, steps[0]), steps[1..]);
    }
  }

  lemma SameKeySameRequest(req: Request, req': Request)
    requires KeyOf(req) == KeyOf(req')
    ensures ExactlyOnce.ColonFree(req) && ExactlyOnce.ColonFree(req') ==> ExactlyOnce.SameRequest(req, req')
  {
    if ExactlyOnce.ColonFree(req) && ExactlyOnce.ColonFree(req') { ExactlyOnce.SameKeyIff(req, req'); }
  }

  /** In every run, a request answered from the cache gets the status, headers and body that an earlier request with the
      same cache key and the same body was answered with, and that answer was a success. */
  lemma ReplayRepeatsEarlierSuccess(cfg: Config, start: Instant, steps: seq<Step>, id: nat) returns (original: nat)
    requires var s := Execute(cfg, Initial(start), steps);
             id in s.flights && s.flights[id].phase.Done? && s.flights[id].phase.answer.FromCache?
    ensures var s := Execute(cfg, Initial(start), steps);
            var replay := s.flights[id].phase.answer.cached;
            && original in s.flights
            && KeyOf(s.flights[original].req) == KeyOf(s.flights[id].req)
            && (ExactlyOnce.ColonFree(s.flights[original].req) && ExactlyOnce.ColonFree(s.flights[id].req) ==>
                  ExactlyOnce.SameRequest(s.flights[original].req, s.flights[id].req))
            && s.flights[original].req.body == s.flights[id].req.body
            && s.flights[original].phase.Done? && s.flights[original].phase.answer.Delivered?
            && SameToClient(replay, s.flights[original].phase.answer.response) && Successful(replay.status)
  {
    BackedForever(cfg, Initial(start), steps);
    hide KeyOf, SameToClient, Execute;
    var s := Execute(cfg, Initial(start), steps);
    var f := s.flights[id];
    assert Logged(s, KeyOf(f.req), f.phase.answer.cached) && Honest(f);
    var k :| 0 <= k < |s.log| && KeyOf(s.log[k].req) == KeyOf(f.req) && s.log[k].entry == f.phase.answer.cached;
    assert Genuine(s, s.log[k]);
    original := s.log[k].id;
    SameKeySameRequest(s.flights[original].req, f.req);
  }
}
