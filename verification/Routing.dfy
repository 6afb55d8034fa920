/** Forwarding one request: what each downstream outcome reports to the protection service and answers to the client. */
module Routing {
  import opened Clock
  import opened Wrappers
  import opened KeyedStore
  import opened Protection
  import opened IdempotencyCache
  import TokenBucket
  import ProtectionService

  /** What comes back from downstream. For a reply, `charged` is the body composed with the fee if the fee was charged
      or deferred, and nothing if the transaction amount or the fee record could not be had. */
  datatype Downstream =
    | TimedOut
    | Broken
    | Replied(status: int, headers: seq<(string, string)>, body: string, enveloped: string, charged: Option<string>)

  datatype Report = Report(response: CachedResponse, timeout: bool, transportFailure: bool)

  const JSON: seq<(string, string)> := [("Content-Type", "application/json")]

  function Response(status: int, headers: seq<(string, string)>, body: string): CachedResponse {
    CachedResponse(status, headers, body, "", ZERO_TIME)
  }

  const BAD_GATEWAY: CachedResponse := Response(502, [], "")

  function ReportOf(req: Request, outcome: Downstream): Report {
    match outcome
    case TimedOut => Report(BAD_GATEWAY, true, false)
    case Broken => Report(BAD_GATEWAY, false, true)
    case Replied(status, headers, body, enveloped, charged) =>
      if req.envelope && !Successful(status) then Report(BAD_GATEWAY, false, status >= 500)
      else if req.route.transactional && Successful(status) then
        match charged
        case Some(composed) => Report(Response(status, JSON, composed), false, false)
        case None => Report(BAD_GATEWAY, false, true)
      else if req.envelope then Report(Response(status, JSON, enveloped), false, false)
      else Report(Response(status, headers, body), false, false)
  }

  datatype Answer =
    | Refused(reason: Denial)
    | FromCache(cached: CachedResponse)
    | Unbuildable
    | Delivered(response: CachedResponse)

  /** A request with the times, the date and the downstream outcome it will meet. */
  datatype Arrival = Arrival(req: Request, now: Instant, today: int, outcome: Downstream, later: Instant)

  function Handle(cfg: Config, s: State, a: Arrival): (State, Answer) {
    var (s1, decision) := Before(cfg, s, a.req, a.now, a.today);
    match decision
    case Denied(reason) => (s1, Refused(reason))
    case Replay(cached) => (s1, FromCache(cached))
    case Forward(_, _) =>
      if !a.req.wellFormed then (s1, Unbuildable)
      else
        var report := ReportOf(a.req, a.outcome);
        (After(cfg, s1, a.req, decision, report.response, report.timeout, report.transportFailure, a.later),
         Delivered(report.response))
  }

  /** The handler, on the live service. A request that cannot be built returns without `After`. */
  method ForwardRequest(service: ProtectionService.Service, a: Arrival) returns (answer: Answer)
    requires service.Valid()
    modifies service.Repr()
    ensures service.Valid()
    ensures (service.View(), answer) == Handle(service.cfg, old(service.View()), a)
  {
    hide Before, After, ProtectionService.Service.View, ProtectionService.Service.Valid, ProtectionService.Service.Repr;
    var decision := service.Before(a.req, a.now, a.today);
    if decision.Denied? {
      return Refused(decision.reason);
    }
    if decision.Replay? {
      return FromCache(decision.cached);
    }
    if !a.req.wellFormed {
      return Unbuildable;
    }
    var report := ReportOf(a.req, a.outcome);
    service.After(a.req, decision, report.response, report.timeout, report.transportFailure, a.later);
    return Delivered(report.response);
  }

  /** What the breaker hears as a failure, whatever the flags passed: a timeout, a broken exchange, a 5xx, any
      unsuccessful status in envelope mode, and a transactional success whose fee could not be settled. */
  lemma FailureHeardIff(req: Request, outcome: Downstream)
    ensures var report := ReportOf(req, outcome);
            CountsAsFailure(report.response.status, report.timeout, report.transportFailure)
            <==> || !outcome.Replied?
                 || outcome.status >= 500
                 || (req.envelope && !(200 <= outcome.status < 300))
                 || (req.route.transactional && 200 <= outcome.status < 300 && outcome.charged.None?)
  {
  }

  /** The exchange as a whole came to nothing: no reply, a reply that envelope mode rejects, or a fee that could not be
      settled or deferred. */
  predicate CameToNothing(req: Request, outcome: Downstream) {
    || !outcome.Replied?
    || (req.envelope && !(200 <= outcome.status < 300))
    || (req.route.transactional && 200 <= outcome.status < 300 && outcome.charged.None?)
  }

  /** The flags are a timeout's for timeouts alone, and a transport failure's for broken exchanges, rejected 5xx replies and
      unsettled fees alone; the client gets 502 for an exchange that came to nothing, and otherwise the status of the reply
      with the body and headers of its kind: composed with the fee, enveloped, or as they came. */
  lemma ClientGets(req: Request, outcome: Downstream)
    ensures var report := ReportOf(req, outcome);
            && (report.timeout <==> outcome.TimedOut?)
            && (report.transportFailure <==>
                  CameToNothing(req, outcome) && !outcome.TimedOut? && (req.envelope && outcome.Replied? ==> outcome.status >= 500 || 200 <= outcome.status < 300))
            && (CameToNothing(req, outcome) ==> report.response.status == 502)
            && (!CameToNothing(req, outcome) ==>
                  && report.response.status == outcome.status
                  && if req.route.transactional && 200 <= outcome.status < 300 then
                       report.response.body == outcome.charged.value && report.response.headers == [("Content-Type", "application/json")]
                     else if req.envelope then
                       report.response.body == outcome.enveloped && report.response.headers == [("Content-Type", "application/json")]
                     else
                       report.response.body == outcome.body && report.response.headers == outcome.headers)
  {
  }

  /** What is stored for replay: exactly the transactional successes whose fee was settled or deferred; and such an
      outcome is never one the breaker hears as a failure. */
  lemma StoredIff(req: Request, outcome: Downstream)
    ensures var report := ReportOf(req, outcome);
            && (Stores(req, KeyOf(req), report.response)
                <==> req.route.transactional && outcome.Replied? && 200 <= outcome.status < 300 && outcome.charged.Some?)
            && (Stores(req, KeyOf(req), report.response) ==>
                  && !CountsAsFailure(report.response.status, report.timeout, report.transportFailure)
                  && report.response.status == outcome.status && report.response.body == outcome.charged.value)
  {
    assert |KeyOf(req)| >= 3;
  }

  // ---- Replays are invisible ----

  predicate AnsweredFromCache(answer: Answer) { answer.FromCache? || answer == Refused(KeyConflict) }

  function Serve(cfg: Config, s: State, arrivals: seq<Arrival>): (r: (State, seq<Answer>))
    ensures |r.1| == |arrivals|
    decreases arrivals
  {
    if arrivals == [] then (s, [])
    else
      var (s', answer) := Handle(cfg, s, arrivals[0]);
      var (final, answers) := Serve(cfg, s', arrivals[1..]);
      (final, [answer] + answers)
  }

  /** The arrivals, and their answers, that were not answered from the cache. */
  function Uncached(arrivals: seq<Arrival>, answers: seq<Answer>): (seq<Arrival>, seq<Answer>)
    requires |arrivals| == |answers|
  {
    if arrivals == [] then ([], [])
    else
      var (kept, keptAnswers) := Uncached(arrivals[1..], answers[1..]);
      if AnsweredFromCache(answers[0]) then (kept, keptAnswers)
      else ([arrivals[0]] + kept, [answers[0]] + keptAnswers)
  }

  /** A request answered from the cache leaves guard, cache and circuits as they were; only its limiter token is gone. */
  lemma CachedAnswerTouchesOnlyLimiter(cfg: Config, s: State, a: Arrival)
    requires AnsweredFromCache(Handle(cfg, s, a).1)
    ensures Handle(cfg, s, a).0 == LimiterStep(cfg, s, a.req, a.now).0
    ensures LimitFor(cfg, a.req.route) <= 0 ==> Handle(cfg, s, a).0 == s
  {
    var (s1, limited) := LimiterStep(cfg, s, a.req, a.now);
    assert limited.None? && CacheVerdict(s1, a.req, a.now).Some?;
    assert AfterGet(s1.cache, KeyOf(a.req), a.now) == s1.cache;
    if LimitFor(cfg, a.req.route) <= 0 {
      var key := LimiterKey(a.req.user, a.req.route.routeClass);
      assert Put(s.limiter, key, Lookup(s.limiter, key)) == s.limiter;
    }
  }

  /** With the limiter off, deleting from a sequential run every request answered from the cache leaves all other
      answers, and the final guard, cache and circuits, unchanged. */
  lemma {:induction false} ReplaysAreInvisible(cfg: Config, s: State, arrivals: seq<Arrival>)
    requires cfg.readLimitPerMinute <= 0 && cfg.transactionalLimitPerMinute <= 0
    ensures var (final, answers) := Serve(cfg, s, arrivals);
            var (kept, keptAnswers) := Uncached(arrivals, answers);
            Serve(cfg, s, kept) == (final, keptAnswers)
    decreases arrivals
  {
    if arrivals != [] {
      var (s', answer) := Handle(cfg, s, arrivals[0]);
      var (final, answers) := Serve(cfg, s, arrivals);
      assert answers[1..] == Serve(cfg, s', arrivals[1..]).1;
      ReplaysAreInvisible(cfg, s', arrivals[1..]);
      var (kept, keptAnswers) := Uncached(arrivals[1..], answers[1..]);
      if AnsweredFromCache(answer) {
        CachedAnswerTouchesOnlyLimiter(cfg, s, arrivals[0]);
      } else {
        assert ([arrivals[0]] + kept)[1..] == kept;
      }
    }
  }
}
