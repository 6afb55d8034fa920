/** No key's traffic shows in another key's answers: limiter per user and route class, guard per user, breaker per service. */
module Isolation {
  import opened Clock
  import opened Wrappers
  import opened KeyedStore
  import opened Keys
  import Protection
  import TokenBucket
  import TransactionGuard
  import CircuitBreaker

  datatype Caller = Caller(user: string, routeClass: string)

  function LimiterMachine(): Machine<TokenBucket.Bucket, TokenBucket.LimiterCall, bool> {
    (bucket: Option<TokenBucket.Bucket>, call: TokenBucket.LimiterCall) => TokenBucket.Allow(bucket, call)
  }

  function GuardMachine(cooldown: Duration, dailyLimit: int)
    : Machine<TransactionGuard.GuardState, TransactionGuard.GuardCall, TransactionGuard.GuardVerdict>
  {
    (state: Option<TransactionGuard.GuardState>, call: TransactionGuard.GuardCall) =>
      TransactionGuard.Allow(state, cooldown, dailyLimit, call)
  }

  /** A breaker answers asks with whether they pass, and everything else with "yes". */
  function BreakerMachine(openWindow: Duration): Machine<CircuitBreaker.Breaker, CircuitBreaker.Event, bool> {
    (circuit: Option<CircuitBreaker.Breaker>, event: CircuitBreaker.Event) =>
      var b := match circuit case Some(existing) => existing case None => CircuitBreaker.FRESH;
      (Some(CircuitBreaker.Step(b, event, openWindow)),
       event.Ask? ==> CircuitBreaker.Allow(b, openWindow, event.now).1)
  }

  ghost predicate KnownClasses<I>(calls: seq<(Caller, I)>) {
    forall i :: 0 <= i < |calls| ==> calls[i].0.routeClass in {"read", "transactional"}
  }

  function Keyed<I>(calls: seq<(Caller, I)>): (keyed: seq<(string, I)>)
    ensures |keyed| == |calls|
  {
    if calls == [] then []
    else [(Protection.LimiterKey(calls[0].0.user, calls[0].0.routeClass), calls[0].1)] + Keyed(calls[1..])
  }

  lemma {:induction false} KeyedSelectsCaller<I, O>(calls: seq<(Caller, I)>, outputs: seq<O>, caller: Caller)
    requires KnownClasses(calls) && caller.routeClass in {"read", "transactional"} && |outputs| == |calls|
    ensures var key := Protection.LimiterKey(caller.user, caller.routeClass);
            && InputsFor(Keyed(calls), key) == InputsFor(calls, caller)
            && OutputsFor(Keyed(calls), outputs, key) == OutputsFor(calls, outputs, caller)
    decreases calls
  {
    if calls != [] {
      var key := Protection.LimiterKey(caller.user, caller.routeClass);
      var first := calls[0].0;
      assert Keyed(calls)[1..] == Keyed(calls[1..]);
      KeyedSelectsCaller(calls[1..], outputs[1..], caller);
      if Protection.LimiterKey(first.user, first.routeClass) == key {
        LimiterKeyIsInjective(first.user, first.routeClass, caller.user, caller.routeClass);
      }
    }
  }

  /** In any interleaved run, a caller's limiter verdicts are those of the caller's own calls alone. */
  lemma CallersDoNotShareTokens(store: map<string, TokenBucket.Bucket>, calls: seq<(Caller, TokenBucket.LimiterCall)>, caller: Caller)
    requires KnownClasses(calls) && caller.routeClass in {"read", "transactional"}
    ensures var verdicts := Serve(LimiterMachine(), store, Keyed(calls)).1;
            var key := Protection.LimiterKey(caller.user, caller.routeClass);
            OutputsFor(calls, verdicts, caller) == ServeOne(LimiterMachine(), Lookup(store, key), InputsFor(calls, caller)).1
  {
    var key := Protection.LimiterKey(caller.user, caller.routeClass);
    KeysAreIsolated(LimiterMachine(), store, Keyed(calls), key);
    KeyedSelectsCaller(calls, Serve(LimiterMachine(), store, Keyed(calls)).1, caller);
  }

  /** In any interleaved run, a user's guard verdicts are those of the user's own transactions alone. */
  lemma UsersDoNotShareGuards(store: map<string, TransactionGuard.GuardState>,
                              calls: seq<(string, TransactionGuard.GuardCall)>,
                              cooldown: Duration, dailyLimit: int, user: string)
    ensures var machine := GuardMachine(cooldown, dailyLimit);
            OutputsFor(calls, Serve(machine, store, calls).1, user)
            == ServeOne(machine, Lookup(store, user), InputsFor(calls, user)).1
  {
    KeysAreIsolated(GuardMachine(cooldown, dailyLimit), store, calls, user);
  }

  /** In any interleaved run, a service's breaker verdicts and final state are those of its own events alone. */
  lemma ServicesDoNotShareBreakers(store: map<string, CircuitBreaker.Breaker>,
                                   events: seq<(string, CircuitBreaker.Event)>, openWindow: Duration, service: string)
    ensures var machine := BreakerMachine(openWindow);
            var (store', verdicts) := Serve(machine, store, events);
            (Lookup(store', service), OutputsFor(events, verdicts, service))
            == ServeOne(machine, Lookup(store, service), InputsFor(events, service))
  {
    KeysAreIsolated(BreakerMachine(openWindow), store, events, service);
  }
}
