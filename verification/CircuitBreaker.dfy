/** One service's circuit breaker, and what its state says about the service's history. */
module CircuitBreaker {
  import opened Clock
  import opened Wrappers

  datatype CircuitState = Closed | Open | HalfOpen
  datatype Breaker = Breaker(
    state: CircuitState, failures: nat, timeouts: seq<Instant>, openedAt: Instant, probeInUse: bool)

  const FRESH := Breaker(Closed, 0, [], ZERO_TIME, false)
  const FAILURE_LIMIT := 5
  const TIMEOUT_LIMIT := 3
  const TIMEOUT_SPAN: Duration := 30_000_000_000

  function Allow(b: Breaker, openWindow: Duration, now: Instant): (Breaker, bool) {
    match b.state
    case Open =>
      if now - b.openedAt >= openWindow then (b.(state := HalfOpen, probeInUse := true), true) else (b, false)
    case HalfOpen =>
      if b.probeInUse then (b, false) else (b.(probeInUse := true), true)
    case Closed => (b, true)
  }

  function RecordSuccess(b: Breaker): Breaker { FRESH }

  function RecordFailure(b: Breaker, timedOut: bool, now: Instant): Breaker {
    if b.state.HalfOpen? then b.(state := Open, openedAt := now, probeInUse := false)
    else
      var timeouts := if timedOut then After(b.timeouts, now - TIMEOUT_SPAN) + [now] else b.timeouts;
      var counted := b.(failures := b.failures + 1, timeouts := timeouts);
      if counted.failures >= FAILURE_LIMIT || |timeouts| >= TIMEOUT_LIMIT
      then counted.(state := Open, openedAt := now, probeInUse := false)
      else counted
  }

  /** The instants after the cutoff, in their order. */
  function After(ts: seq<Instant>, cutoff: Instant): seq<Instant> {
    if ts == [] then []
    else
      var kept := After(ts[..|ts| - 1], cutoff);
      if ts[|ts| - 1] > cutoff then kept + [ts[|ts| - 1]] else kept
  }

  /** A service's breaker, which its first call creates closed. */
  function Current(circuits: map<string, Breaker>, service: string): Breaker {
    if service in circuits then circuits[service] else FRESH
  }

  // ---- History ----

  datatype Event = Ask(now: Instant) | Success | Failure(timedOut: bool, now: Instant)

  function Step(b: Breaker, event: Event, openWindow: Duration): Breaker {
    match event
    case Ask(now) => Allow(b, openWindow, now).0
    case Success => RecordSuccess(b)
    case Failure(timedOut, now) => RecordFailure(b, timedOut, now)
  }

  function Run(history: seq<Event>, openWindow: Duration): Breaker {
    if history == [] then FRESH
    else Step(Run(history[..|history| - 1], openWindow), history[|history| - 1], openWindow)
  }

  /** The failures since the last success. */
  function FailuresSince(history: seq<Event>): (failures: seq<Event>)
    ensures forall i :: 0 <= i < |failures| ==> failures[i].Failure?
  {
    if history == [] then []
    else
      var event := history[|history| - 1];
      match event
      case Ask(_) => FailuresSince(history[..|history| - 1])
      case Success => []
      case Failure(_, _) => FailuresSince(history[..|history| - 1]) + [event]
  }

  function TimeoutTimes(failures: seq<Event>): seq<Instant> {
    if failures == [] then []
    else
      var event := failures[|failures| - 1];
      var times := TimeoutTimes(failures[..|failures| - 1]);
      if event.Failure? && event.timedOut then times + [event.now] else times
  }

  /** The list as the breaker prunes it: each new timeout drops those a span or more before it. */
  function Pruned(ts: seq<Instant>): seq<Instant> {
    if ts == [] then [] else After(Pruned(ts[..|ts| - 1]), ts[|ts| - 1] - TIMEOUT_SPAN) + [ts[|ts| - 1]]
  }

  /** No timeout recorded after the i-th, up to the k-th, came a span or more later than it. */
  ghost predicate Lasts(ts: seq<Instant>, i: nat, k: nat)
    requires i <= k < |ts|
  {
    forall m :: i < m <= k ==> ts[m] - ts[i] < 30 * SECOND
  }

  /** Some timeout was recorded while two earlier ones still lasted. */
  ghost predicate ThreeLast(ts: seq<Instant>) {
    exists i: nat, j: nat, k: nat :: i < j < k < |ts| && Lasts(ts, i, k) && Lasts(ts, j, k)
  }

  /** Three instants, first to last, in less than the span. */
  ghost predicate ThreeWithinSpan(ts: seq<Instant>) {
    exists i, k :: 0 <= i && i + 2 <= k < |ts| && ts[k] - ts[i] < 30 * SECOND
  }

  ghost predicate Tripped(failures: seq<Event>) {
    |failures| >= FAILURE_LIMIT || ThreeLast(TimeoutTimes(failures))
  }

  // ---- What the pruned list holds ----

  function Max(a: int, b: int): int { if a < b then b else a }

  lemma {:induction false} AfterAfter(ts: seq<Instant>, c1: Instant, c2: Instant)
    ensures After(After(ts, c1), c2) == After(ts, Max(c1, c2))
  {
    if ts != [] {
      var rest, last := ts[..|ts| - 1], ts[|ts| - 1];
      AfterAfter(rest, c1, c2);
      if last > c1 { AfterAppend(After(rest, c1), last, c2); }
    }
  }

  lemma AfterAppend(ts: seq<Instant>, now: Instant, cutoff: Instant)
    ensures After(ts + [now], cutoff) == After(ts, cutoff) + if now > cutoff then [now] else []
  {
    var longer := ts + [now];
    assert longer[..|longer| - 1] == ts;
  }

  ghost predicate LastsAfter(ts: seq<Instant>, i: nat, cutoff: Instant) {
    i < |ts| && Lasts(ts, i, |ts| - 1) && ts[i] > cutoff
  }

  ghost predicate One(ts: seq<Instant>, cutoff: Instant) { exists i: nat :: LastsAfter(ts, i, cutoff) }

  ghost predicate Two(ts: seq<Instant>, cutoff: Instant) {
    exists i: nat, j: nat :: i < j && LastsAfter(ts, i, cutoff) && LastsAfter(ts, j, cutoff)
  }

  lemma LastsAppend(ts: seq<Instant>, now: Instant, i: nat, cutoff: Instant)
    ensures LastsAfter(ts + [now], i, cutoff)
       <==> (i < |ts| && LastsAfter(ts, i, Max(now - TIMEOUT_SPAN, cutoff))) || (i == |ts| && now > cutoff)
  {
    var longer := ts + [now];
    if i < |ts| && LastsAfter(longer, i, cutoff) {
      assert longer[|ts|] - longer[i] < 30 * SECOND;
      assert forall m :: i < m <= |ts| - 1 ==> longer[m] == ts[m];
    }
  }

  lemma OneAppend(ts: seq<Instant>, now: Instant, cutoff: Instant)
    ensures One(ts + [now], cutoff) <==> now > cutoff || One(ts, Max(now - TIMEOUT_SPAN, cutoff))
  {
    var longer, c := ts + [now], Max(now - TIMEOUT_SPAN, cutoff);
    forall i: nat ensures LastsAfter(longer, i, cutoff) <==> LastsAfter(ts, i, c) || (i == |ts| && now > cutoff) {
      LastsAppend(ts, now, i, cutoff);
    }
    hide LastsAfter, Max;
    if now > cutoff { assert LastsAfter(longer, |ts|, cutoff); }
    if i: nat :| LastsAfter(ts, i, c) { assert LastsAfter(longer, i, cutoff); }
  }

  lemma TwoAppend(ts: seq<Instant>, now: Instant, cutoff: Instant)
    ensures var c := Max(now - TIMEOUT_SPAN, cutoff);
            Two(ts + [now], cutoff) <==> Two(ts, c) || (now > cutoff && One(ts, c))
  {
    var longer, c := ts + [now], Max(now - TIMEOUT_SPAN, cutoff);
    forall i: nat
      ensures LastsAfter(longer, i, cutoff) <==> LastsAfter(ts, i, c) || (i == |ts| && now > cutoff)
      ensures LastsAfter(ts, i, c) ==> i < |ts|
    {
      LastsAppend(ts, now, i, cutoff);
    }
    hide LastsAfter, Max;
    if i: nat, j: nat :| i < j && LastsAfter(ts, i, c) && LastsAfter(ts, j, c) {
      assert LastsAfter(longer, i, cutoff) && LastsAfter(longer, j, cutoff);
    }
    if now > cutoff && One(ts, c) {
      var i: nat :| LastsAfter(ts, i, c);
      assert LastsAfter(longer, i, cutoff) && LastsAfter(longer, |ts|, cutoff);
    }
    if i: nat, j: nat :| i < j && LastsAfter(longer, i, cutoff) && LastsAfter(longer, j, cutoff) {
      assert LastsAfter(ts, i, c);
    }
  }

  lemma {:induction false} PrunedHolds(ts: seq<Instant>, cutoff: Instant)
    ensures |After(Pruned(ts), cutoff)| >= 1 <==> One(ts, cutoff)
    ensures |After(Pruned(ts), cutoff)| >= 2 <==> Two(ts, cutoff)
    decreases |ts|
  {
    if ts == [] {
      assert !One(ts, cutoff);
    } else {
      var rest, now := ts[..|ts| - 1], ts[|ts| - 1];
      assert ts == rest + [now];
      hide *;
      PrunedHolds(rest, Max(now - TIMEOUT_SPAN, cutoff));
      OneAppend(rest, now, cutoff);
      TwoAppend(rest, now, cutoff);
      PrunedAppend(rest, now);
      AfterAfter(Pruned(rest), now - TIMEOUT_SPAN, cutoff);
      AfterAppend(After(Pruned(rest), now - TIMEOUT_SPAN), now, cutoff);
    }
  }

  lemma PrunedAppend(ts: seq<Instant>, now: Instant)
    ensures Pruned(ts + [now]) == After(Pruned(ts), now - TIMEOUT_SPAN) + [now]
  {
    var longer := ts + [now];
    assert longer[..|longer| - 1] == ts;
  }

  lemma ThreeLastAppend(ts: seq<Instant>, now: Instant)
    ensures ThreeLast(ts + [now]) <==> ThreeLast(ts) || Two(ts, now - TIMEOUT_SPAN)
  {
    var longer, c := ts + [now], now - TIMEOUT_SPAN;
    forall i: nat, k: nat | i <= k < |ts| ensures Lasts(longer, i, k) <==> Lasts(ts, i, k) {
      assert forall m :: i <= m <= k ==> longer[m] == ts[m];
    }
    forall i: nat | i < |ts| ensures Lasts(longer, i, |ts|) <==> LastsAfter(ts, i, c) {
      LastsAppend(ts, now, i, ts[i] - 1);
    }
    hide Lasts, LastsAfter;
    if ThreeLast(ts) {
      var i: nat, j: nat, k: nat :| i < j < k < |ts| && Lasts(ts, i, k) && Lasts(ts, j, k);
      assert Lasts(longer, i, k) && Lasts(longer, j, k);
    }
    if Two(ts, c) { TwoWithNewest(ts, now); }
    if ThreeLast(longer) {
      var i: nat, j: nat, k: nat :| i < j < k < |longer| && Lasts(longer, i, k) && Lasts(longer, j, k);
      if k == |ts| { assert LastsAfter(ts, i, c) && LastsAfter(ts, j, c); }
    }
  }

  lemma TwoWithNewest(ts: seq<Instant>, now: Instant)
    requires Two(ts, now - TIMEOUT_SPAN)
    ensures ThreeLast(ts + [now])
  {
    var longer := ts + [now];
    var i: nat, j: nat :| i < j && LastsAfter(ts, i, now - TIMEOUT_SPAN) && LastsAfter(ts, j, now - TIMEOUT_SPAN);
    assert Lasts(longer, i, |ts|) && Lasts(longer, j, |ts|);
  }

  /** One more timeout: whatever the order of times, the pruned list reaches three exactly when two earlier timeouts of the
      whole history still last. */
  lemma PrunedListDetectsThree(ts: seq<Instant>, now: Instant)
    ensures ThreeLast(ts + [now]) <==> ThreeLast(ts) || |Pruned(ts + [now])| >= TIMEOUT_LIMIT
  {
    PrunedHolds(ts, now - TIMEOUT_SPAN);
    PrunedAppend(ts, now);
    ThreeLastAppend(ts, now);
    hide Pruned, ThreeLast, Two, One;
  }

  // ---- Ordered times ----

  /** The filter keeps a suffix that is after the cutoff if nothing before it is. */
  lemma {:induction false} AfterFrom(ts: seq<Instant>, cutoff: Instant, n: nat)
    requires n <= |ts|
    requires forall i :: 0 <= i < |ts| ==> (ts[i] > cutoff <==> n <= i)
    ensures After(ts, cutoff) == ts[n..]
  {
    if ts != [] {
      var rest, last := ts[..|ts| - 1], ts[|ts| - 1];
      AfterFrom(rest, cutoff, if n == |ts| then n - 1 else n);
      assert n < |ts| ==> ts[n..] == rest[n..] + [last];
    }
  }

  lemma {:induction false} SplitAt(ts: seq<Instant>, cutoff: Instant) returns (n: nat)
    requires Ordered(ts)
    ensures n <= |ts| && forall i :: 0 <= i < |ts| ==> (ts[i] > cutoff <==> n <= i)
  {
    n := |ts|;
    while n > 0 && ts[n - 1] > cutoff
      invariant n <= |ts| && forall i :: n <= i < |ts| ==> ts[i] > cutoff
    {
      n := n - 1;
    }
  }

  /** On ordered instants the filter keeps exactly the suffix that is after the cutoff, in order. */
  lemma AfterIsSuffix(ts: seq<Instant>, cutoff: Instant)
    requires Ordered(ts)
    ensures |After(ts, cutoff)| <= |ts|
    ensures After(ts, cutoff) == ts[|ts| - |After(ts, cutoff)|..]
    ensures forall i :: 0 <= i < |ts| ==> (ts[i] > cutoff <==> |ts| - |After(ts, cutoff)| <= i)
  {
    var n := SplitAt(ts, cutoff);
    AfterFrom(ts, cutoff, n);
  }

  /** With ordered times, a timeout lasts until the span after it is over. */
  lemma ThreeLastWhenOrdered(ts: seq<Instant>)
    requires Ordered(ts)
    ensures ThreeLast(ts) <==> ThreeWithinSpan(ts)
  {
    if ThreeLast(ts) {
      var i: nat, j: nat, k: nat :| i < j < k < |ts| && Lasts(ts, i, k) && Lasts(ts, j, k);
      assert i + 2 <= k && ts[k] - ts[i] < 30 * SECOND;
    }
    if ThreeWithinSpan(ts) {
      var i, k :| 0 <= i && i + 2 <= k < |ts| && ts[k] - ts[i] < 30 * SECOND;
      assert Lasts(ts, i, k) && Lasts(ts, i + 1, k);
    }
  }

  // ---- State and history ----

  /** A closed breaker's counters are the history since the last success. */
  ghost predicate Tells(b: Breaker, failures: seq<Event>) {
    && (b.state.Closed? <==> !Tripped(failures))
    && (b.state.HalfOpen? <==> b.probeInUse)
    && (b.state.Closed? ==> b.failures == |failures| && b.timeouts == Pruned(TimeoutTimes(failures)))
  }

  lemma TimeoutTimesGrow(failures: seq<Event>, event: Event)
    ensures var ts := TimeoutTimes(failures);
            TimeoutTimes(failures + [event]) == if event.Failure? && event.timedOut then ts + [event.now] else ts
  {
    assert (failures + [event])[..|failures + [event]| - 1] == failures;
  }

  lemma QuietListIsShort(ts: seq<Instant>)
    requires !ThreeLast(ts)
    ensures |Pruned(ts)| < TIMEOUT_LIMIT
  {
    if ts != [] {
      assert ts == ts[..|ts| - 1] + [ts[|ts| - 1]];
      PrunedListDetectsThree(ts[..|ts| - 1], ts[|ts| - 1]);
    }
  }

  lemma FailureStep(b: Breaker, failures: seq<Event>, event: Event)
    requires event.Failure? && Tells(b, failures)
    ensures Tells(RecordFailure(b, event.timedOut, event.now), failures + [event])
  {
    hide After, Pruned, ThreeLast, TimeoutTimes;
    var ts := TimeoutTimes(failures);
    TimeoutTimesGrow(failures, event);
    if event.timedOut {
      PrunedAppend(ts, event.now);
      PrunedListDetectsThree(ts, event.now);
    } else if !ThreeLast(ts) {
      QuietListIsShort(ts);
    }
  }

  lemma {:induction false} StateTellsHistory(history: seq<Event>, openWindow: Duration)
    ensures Tells(Run(history, openWindow), FailuresSince(history))
    decreases |history|
  {
    if history != [] {
      var earlier, event := history[..|history| - 1], history[|history| - 1];
      match event {
        case Success => assert !ThreeLast([]);
        case Ask(now) => StateTellsHistory(earlier, openWindow);
        case Failure(timedOut, now) =>
          StateTellsHistory(earlier, openWindow);
          FailureStep(Run(earlier, openWindow), FailuresSince(earlier), event);
      }
    }
  }

  /** In every history, times in any order: a circuit is closed if and only if, since the last recorded success, there were
      fewer than five failures and no timeout was recorded while two earlier ones still lasted. */
  lemma ClosedIffNoThreeLast(history: seq<Event>, openWindow: Duration)
    ensures Run(history, openWindow).state.Closed? <==>
      |FailuresSince(history)| < 5 && !ThreeLast(TimeoutTimes(FailuresSince(history)))
  {
    StateTellsHistory(history, openWindow);
  }

  /** With timeouts recorded in order: fewer than five failures and no three timeouts within a span under 30 seconds. */
  lemma ClosedIffHistoryIsQuiet(history: seq<Event>, openWindow: Duration)
    requires Ordered(TimeoutTimes(FailuresSince(history)))
    ensures Run(history, openWindow).state.Closed? <==>
      |FailuresSince(history)| < 5 && !ThreeWithinSpan(TimeoutTimes(FailuresSince(history)))
  {
    ClosedIffNoThreeLast(history, openWindow);
    ThreeLastWhenOrdered(TimeoutTimes(FailuresSince(history)));
  }

  /** Half-open and "probe in use" never come apart, so the branch that would hand out a second probe is never taken. */
  lemma {:induction false} HalfOpenIffProbing(history: seq<Event>, openWindow: Duration)
    ensures var b := Run(history, openWindow); b.state.HalfOpen? <==> b.probeInUse
  {
    if history != [] { HalfOpenIffProbing(history[..|history| - 1], openWindow); }
  }

  // ---- The counters, and when a circuit opened ----

  /** The failures since the last success that were not the report of a probe: these are counted, in every state. */
  function Counted(history: seq<Event>, openWindow: Duration): seq<Event> {
    if history == [] then []
    else
      var earlier, event := history[..|history| - 1], history[|history| - 1];
      match event
      case Ask(_) => Counted(earlier, openWindow)
      case Success => []
      case Failure(_, _) =>
        if Run(earlier, openWindow).state.HalfOpen? then Counted(earlier, openWindow)
        else Counted(earlier, openWindow) + [event]
  }

  /** The last event is a failure that opens the circuit now: a probe's, or one with which five failures are counted or the
      newest counted timeout has two others that still last. */
  predicate OpensNow(history: seq<Event>, openWindow: Duration)
    requires history != []
  {
    && history[|history| - 1].Failure?
    && (|| Run(history[..|history| - 1], openWindow).state.HalfOpen?
        || |Counted(history, openWindow)| >= 5
        || |Pruned(TimeoutTimes(Counted(history, openWindow)))| >= 3)
  }

  /** When the last failure since the last success that opened the circuit was. */
  function Opening(history: seq<Event>, openWindow: Duration): Option<Instant> {
    if history == [] || history[|history| - 1].Success? then None
    else if OpensNow(history, openWindow) then Some(history[|history| - 1].now)
    else Opening(history[..|history| - 1], openWindow)
  }

  ghost predicate CountersAre(b: Breaker, counted: seq<Event>) {
    b.failures == |counted| && b.timeouts == Pruned(TimeoutTimes(counted))
  }

  ghost predicate OpenedAtIs(b: Breaker, opening: Option<Instant>) {
    (b.state.Closed? <==> opening.None?) && (opening.Some? ==> b.openedAt == opening.value)
  }

  lemma FailureCounts(b: Breaker, counted: seq<Event>, event: Event)
    requires event.Failure? && CountersAre(b, counted) && !b.state.HalfOpen?
    ensures var b' := RecordFailure(b, event.timedOut, event.now);
            && CountersAre(b', counted + [event])
            && if b'.failures >= 5 || |b'.timeouts| >= 3 then b'.state.Open? && b'.openedAt == event.now
               else b'.state == b.state && b'.openedAt == b.openedAt
  {
    hide After, Pruned, TimeoutTimes;
    TimeoutTimesGrow(counted, event);
    if event.timedOut { PrunedAppend(TimeoutTimes(counted), event.now); }
  }

  /** In every history, whatever the state: the counters are those of the counted failures, and a circuit that is not closed
      has opened at the time of the last failure that opened it. */
  lemma {:induction false} CountersAndOpening(history: seq<Event>, openWindow: Duration)
    ensures CountersAre(Run(history, openWindow), Counted(history, openWindow))
    ensures OpenedAtIs(Run(history, openWindow), Opening(history, openWindow))
    decreases |history|
  {
    if history == [] {
    } else {
      var earlier, event := history[..|history| - 1], history[|history| - 1];
      CountersAndOpening(earlier, openWindow);
      hide After, Pruned, TimeoutTimes;
      match event {
        case Success => NoneCounted();
        case Ask(_) =>
        case Failure(_, _) =>
          if !Run(earlier, openWindow).state.HalfOpen? {
            FailureCounts(Run(earlier, openWindow), Counted(earlier, openWindow), event);
            hide RecordFailure;
          }
      }
    }
  }

  lemma NoneCounted()
    ensures CountersAre(FRESH, [])
  {
  }

  /** A failure that finds the circuit closed or half-open and leaves it open dates the opening, and the circuit refuses
      every call until the window from that time is over. */
  lemma OpenedNowRefuses(history: seq<Event>, failure: Event, openWindow: Duration, now: Instant)
    requires failure.Failure? && !Run(history, openWindow).state.Open?
    requires Run(history + [failure], openWindow).state.Open?
    ensures Run(history + [failure], openWindow).openedAt == failure.now
    ensures Allow(Run(history + [failure], openWindow), openWindow, now).1 <==> now >= failure.now + openWindow
  {
    assert (history + [failure])[..|history + [failure]| - 1] == history;
    hide After;
  }

  /** In every history, a call is let through if and only if the circuit is closed, or open for at least the window. */
  lemma AdmitsIff(history: seq<Event>, openWindow: Duration, now: Instant)
    ensures var b := Run(history, openWindow);
            Allow(b, openWindow, now).1 <==>
              || (|FailuresSince(history)| < 5 && !ThreeLast(TimeoutTimes(FailuresSince(history))))
              || (b.state.Open? && Opening(history, openWindow).Some? && now >= Opening(history, openWindow).value + openWindow)
  {
    CountersAndOpening(history, openWindow);
    HalfOpenIffProbing(history, openWindow);
    ClosedIffNoThreeLast(history, openWindow);
    hide Run, ThreeLast, Opening, Counted;
  }

  /** The last failure since the last success opened the circuit. */
  predicate LastFailureOpens(history: seq<Event>, openWindow: Duration) {
    history != [] && !history[|history| - 1].Success? &&
    if history[|history| - 1].Failure? then OpensNow(history, openWindow)
    else LastFailureOpens(history[..|history| - 1], openWindow)
  }

  lemma {:induction false} OpeningIsFailure(history: seq<Event>, openWindow: Duration) returns (n: nat)
    requires Opening(history, openWindow).Some?
    ensures var fs := FailuresSince(history);
            && n < |fs| && Opening(history, openWindow) == Some(fs[n].now)
            && (LastFailureOpens(history, openWindow) <==> n == |fs| - 1)
    decreases |history|
  {
    hide Run, Counted, OpensNow;
    var earlier, event := history[..|history| - 1], history[|history| - 1];
    if OpensNow(history, openWindow) {
      assert event.Failure? by { OpensIsFailure(history, openWindow); }
      n := |FailuresSince(earlier)|;
    } else {
      n := OpeningIsFailure(earlier, openWindow);
    }
  }

  lemma OpensIsFailure(history: seq<Event>, openWindow: Duration)
    requires history != [] && OpensNow(history, openWindow)
    ensures history[|history| - 1].Failure?
  {
  }

  /** An open circuit need not date from the last failure. It does if that failure opened the circuit, and, as long as no
      earlier failure since the last success bears the same time, only then. */
  lemma OpenedAtLastFailureIff(history: seq<Event>, openWindow: Duration)
    requires Run(history, openWindow).state.Open?
    ensures var fs := FailuresSince(history);
            && fs != []
            && (LastFailureOpens(history, openWindow) ==> Run(history, openWindow).openedAt == fs[|fs| - 1].now)
            && ((forall i :: 0 <= i < |fs| - 1 ==> fs[i].now != fs[|fs| - 1].now) ==>
                  (Run(history, openWindow).openedAt == fs[|fs| - 1].now <==> LastFailureOpens(history, openWindow)))
  {
    CountersAndOpening(history, openWindow);
    var n := OpeningIsFailure(history, openWindow);
    hide Run, Opening, LastFailureOpens, FailuresSince;
  }

  lemma RunAppend(history: seq<Event>, event: Event, openWindow: Duration)
    ensures Run(history + [event], openWindow) == Step(Run(history, openWindow), event, openWindow)
  {
    var longer := history + [event];
    assert longer[..|longer| - 1] == history;
  }

  lemma FirstTwoTimeouts()
    ensures Run([Failure(true, 0), Failure(true, 1)], 60 * SECOND) == FRESH.(failures := 2, timeouts := [0, 1])
  {
    assert [] + [Failure(true, 0)] == [Failure(true, 0)];
    assert [Failure(true, 0)] + [Failure(true, 1)] == [Failure(true, 0), Failure(true, 1)];
    RunAppend([], Failure(true, 0), 60 * SECOND);
    RunAppend([Failure(true, 0)], Failure(true, 1), 60 * SECOND);
    AfterFrom([], -30 * SECOND, 0);
    AfterFrom([0], 1 - 30 * SECOND, 0);
    assert Run([], 60 * SECOND) == FRESH;
    hide Run, After;
  }

  /** Three timeouts within the span open the circuit; a fourth, forty seconds later and counted while it is open, has
      nothing left to count with and does not date it anew. */
  lemma LateTimeoutKeepsOpening()
    ensures Run([Failure(true, 0), Failure(true, 1)] + [Failure(true, 2)] + [Failure(true, 40 * SECOND)], 60 * SECOND)
         == Breaker(Open, 4, [40 * SECOND], 2, false)
  {
    hide Run, After;
    FirstTwoTimeouts();
    RunAppend([Failure(true, 0), Failure(true, 1)], Failure(true, 2), 60 * SECOND);
    RunAppend([Failure(true, 0), Failure(true, 1)] + [Failure(true, 2)], Failure(true, 40 * SECOND), 60 * SECOND);
    AfterFrom([0, 1], 2 - 30 * SECOND, 0);
    assert Run([Failure(true, 0), Failure(true, 1)] + [Failure(true, 2)], 60 * SECOND) == Breaker(Open, 3, [0, 1, 2], 2, false);
    AfterFrom([0, 1, 2], 10 * SECOND, 3);
    assert [0, 1, 2][3..] == [];
  }

  // ---- Probe budget ----

  /** How many of the events are calls that get through. */
  function Probes(b: Breaker, events: seq<Event>, openWindow: Duration): nat
    decreases events
  {
    if events == [] then 0
    else
      Probes(Step(b, events[0], openWindow), events[1..], openWindow)
      + if events[0].Ask? && Allow(b, openWindow, events[0].now).1 then 1 else 0
  }

  ghost predicate NoSuccess(events: seq<Event>) { forall i :: 0 <= i < |events| ==> !events[i].Success? }

  ghost predicate TimesWithin(events: seq<Event>, start: Instant, end: Instant)
    requires NoSuccess(events)
  {
    && (forall i :: 0 <= i < |events| ==> start <= events[i].now <= end)
    && (forall i, j :: 0 <= i < j < |events| ==> events[i].now <= events[j].now)
  }

  lemma {:induction false} ProbesFitWindow(b: Breaker, events: seq<Event>, openWindow: Duration, start: Instant, end: Instant)
    requires openWindow > 0 && !b.state.Closed? && (b.state.HalfOpen? <==> b.probeInUse)
    requires NoSuccess(events) && TimesWithin(events, start, end) && start <= end
    requires b.state.Open? ==> b.openedAt <= start
    ensures Probes(b, events, openWindow) * openWindow <= end - if b.state.Open? then b.openedAt else start
    decreases events
  {
    if events != [] {
      var b' := Step(b, events[0], openWindow);
      ProbesFitWindow(b', events[1..], openWindow, events[0].now, end);
      OneMore(Probes(b', events[1..], openWindow), openWindow);
    }
  }

  lemma OneMore(n: int, d: int)
    ensures (n + 1) * d == n * d + d
  {
  }

  lemma OpenBudget(b: Breaker, events: seq<Event>, openWindow: Duration, t0: Instant, t: Instant)
    requires openWindow > 0 && b.state.Open? && b.openedAt == t0 && !b.probeInUse
    requires NoSuccess(events) && TimesWithin(events, t0, t) && t0 <= t
    ensures Probes(b, events, openWindow) <= (t - t0) / openWindow
  {
    var n := Probes(b, events, openWindow);
    ProbesFitWindow(b, events, openWindow, t0, t);
    hide Probes, TimesWithin;
    assert n * openWindow <= t - t0;
    if n >= (t - t0) / openWindow + 1 {
      Scale((t - t0) / openWindow + 1, n, openWindow);
    }
  }

  /** In every history: if a failure at t0 takes the circuit out of CLOSED or HALF_OPEN and no success is recorded
      afterwards, the calls let through up to time t number at most (t - t0) / openWindow, whatever late failures arrive
      meanwhile. */
  lemma ProbeBudget(history: seq<Event>, failure: Event, events: seq<Event>, openWindow: Duration, t: Instant)
    requires openWindow > 0 && failure.Failure?
    requires !Run(history, openWindow).state.Open? && Run(history + [failure], openWindow).state.Open?
    requires NoSuccess(events) && TimesWithin(events, failure.now, t) && failure.now <= t
    ensures Probes(Run(history + [failure], openWindow), events, openWindow) <= (t - failure.now) / openWindow
  {
    OpenedNowRefuses(history, failure, openWindow, t);
    HalfOpenIffProbing(history + [failure], openWindow);
    hide Run, Probes, TimesWithin, NoSuccess;
    OpenBudget(Run(history + [failure], openWindow), events, openWindow, failure.now, t);
  }

  lemma Scale(a: int, b: int, d: int)
    requires a <= b && d > 0
    ensures a * d <= b * d
  {
  }
}
