/** The token bucket of one limiter key, and what its run of calls means. */
module TokenBucket {
  import opened Clock
  import opened Wrappers
  import opened Tally

  /** Tokens are held exactly, in units of 1/(60*10^9) token: a bucket of `limit` tokens a minute then
      gains `limit` units per nanosecond. This is n whole tokens in those units. */
  function Tokens(n: int): int { n * 60_000_000_000 }

  datatype BucketState = BucketState(tokens: int, limit: int, lastRefill: Instant)
  datatype LimiterCall = LimiterCall(limit: int, now: Instant)

  function Refill(b: BucketState, now: Instant): BucketState {
    if now > b.lastRefill then
      var grown := b.tokens + b.limit * (now - b.lastRefill);
      BucketState(if grown > Tokens(b.limit) then Tokens(b.limit) else grown, b.limit, now)
    else b
  }

  function Take(b: Bucket): (Bucket, bool) {
    if b.tokens >= Tokens(1) then (b.(tokens := b.tokens - Tokens(1)), true) else (b, false)
  }

  /** The wait reported with a denial: the time the missing fraction takes to refill, cut to whole
      nanoseconds, plus one second. */
  function DenialWait(b: Bucket): Duration {
    (Tokens(1) - b.tokens) / b.limit + SECOND
  }

  type Bucket = b: BucketState | b.limit > 0 witness BucketState(0, 1, 0)

  /** One call on a key: a non-positive limit switches the limiter off; the first limited call creates
      the bucket, whose limit later calls do not change. */
  function Allow(b: Option<Bucket>, call: LimiterCall): (Option<Bucket>, bool) {
    if call.limit <= 0 then (b, true)
    else
      var bucket := match b
        case Some(existing) => existing
        case None => BucketState(Tokens(call.limit), call.limit, call.now);
      var (bucket', ok) := Take(Refill(bucket, call.now));
      (Some(bucket'), ok)
  }

  // ---- Runs of calls on one key, from no bucket ----

  ghost predicate Limited(calls: seq<LimiterCall>) {
    forall i :: 0 <= i < |calls| ==> calls[i].limit > 0
  }

  function StateAfter(calls: seq<LimiterCall>): Option<Bucket> {
    if calls == [] then None
    else Allow(StateAfter(calls[..|calls| - 1]), calls[|calls| - 1]).0
  }

  function Verdicts(calls: seq<LimiterCall>): (verdicts: seq<bool>)
    ensures |verdicts| == |calls|
  {
    if calls == [] then []
    else
      var earlier := calls[..|calls| - 1];
      Verdicts(earlier) + [Allow(StateAfter(earlier), calls[|calls| - 1]).1]
  }

  /** The latest `now` among calls 0..k: the time the bucket has reached, even when `now` values arrive out of order. */
  function Reached(calls: seq<LimiterCall>, k: nat): Instant
    requires k < |calls|
  {
    if k == 0 || calls[k].now > Reached(calls, k - 1) then calls[k].now else Reached(calls, k - 1)
  }

  lemma {:induction false} ReachedWhenOrdered(calls: seq<LimiterCall>, k: nat)
    requires k < |calls|
    requires forall i, j :: 0 <= i < j < |calls| ==> calls[i].now <= calls[j].now
    ensures Reached(calls, k) == calls[k].now
  {
    if k > 0 { ReachedWhenOrdered(calls, k - 1); }
  }

  lemma {:induction false} VerdictsOfPrefix(calls: seq<LimiterCall>, k: nat)
    requires k <= |calls|
    ensures Verdicts(calls[..k]) == Verdicts(calls)[..k]
    ensures forall i :: 0 <= i < k ==> Verdicts(calls[..k])[i] == Verdicts(calls)[i]
    decreases |calls|
  {
    if k < |calls| {
      var earlier := calls[..|calls| - 1];
      assert earlier[..k] == calls[..k];
      VerdictsOfPrefix(earlier, k);
    } else {
      assert calls[..k] == calls;
    }
  }

  /** The tokens call k finds, after refilling. */
  ghost function Level(calls: seq<LimiterCall>, k: nat): int
    requires k < |calls| && Limited(calls)
  {
    match StateAfter(calls[..k])
    case Some(b) => Refill(b, calls[k].now).tokens
    case None => Tokens(calls[k].limit)
  }

  /** The burst-plus-rate bound on the window from call j to call k: the full bucket plus the refill in between. */
  ghost function Allowance(calls: seq<LimiterCall>, j: nat, k: nat): int
    requires j <= k < |calls|
  {
    Tokens(calls[0].limit) + calls[0].limit * (Reached(calls, k) - Reached(calls, j))
  }

  /** What that window leaves at call k, after the admissions since call j. */
  ghost function Headroom(calls: seq<LimiterCall>, verdicts: seq<bool>, j: nat, k: nat): int
    requires j <= k < |calls| && k <= |verdicts|
  {
    Allowance(calls, j, k) - Tokens(Count(verdicts, j, k))
  }

  lemma RefillKeeps()
    ensures forall b: BucketState, now: Instant :: Refill(b, now).limit == b.limit
    ensures forall b: BucketState, now: Instant :: Refill(b, now).lastRefill == if now > b.lastRefill then now else b.lastRefill
    ensures forall b: BucketState :: Refill(b, b.lastRefill) == b
  {
  }

  lemma {:induction false} BucketAt(calls: seq<LimiterCall>, k: nat)
    requires k < |calls| && Limited(calls)
    ensures Verdicts(calls)[k] <==> Level(calls, k) >= Tokens(1)
    ensures StateAfter(calls[..k + 1]) == Some(BucketState(
        Level(calls, k) - if Verdicts(calls)[k] then Tokens(1) else 0, calls[0].limit, Reached(calls, k)))
    ensures k + 1 < |calls| ==> Level(calls, k + 1) == Refill(BucketState(
        Level(calls, k) - Spent(Verdicts(calls), k + 1), calls[0].limit, Reached(calls, k)), calls[k + 1].now).tokens
    decreases k
  {
    RefillKeeps();
    hide Refill, Tokens;
    var upTo := calls[..k + 1];
    assert upTo[..k] == calls[..k];
    VerdictsOfPrefix(calls, k + 1);
    assert Verdicts(calls)[k] == Verdicts(upTo)[k];
    if k > 0 {
      BucketAt(calls, k - 1);
      assert calls[..k] == calls[..(k - 1) + 1];
    } else {
      assert calls[..0] == [];
    }
  }

  ghost function Gained(calls: seq<LimiterCall>, k: nat): int
    requires 0 < k < |calls|
  {
    calls[0].limit * (Reached(calls, k) - Reached(calls, k - 1))
  }

  ghost function Spent(verdicts: seq<bool>, k: nat): int
    requires 0 < k <= |verdicts|
  {
    if verdicts[k - 1] then Tokens(1) else 0
  }

  lemma LevelStep(calls: seq<LimiterCall>, k: nat)
    requires k + 1 < |calls| && Limited(calls)
    requires Level(calls, k) <= Tokens(calls[0].limit)
    ensures Gained(calls, k + 1) >= 0
    ensures var uncapped := Level(calls, k) - Spent(Verdicts(calls), k + 1) + Gained(calls, k + 1);
            Level(calls, k + 1) == if uncapped > Tokens(calls[0].limit) then Tokens(calls[0].limit) else uncapped
  {
    hide StateAfter, Level, Verdicts;
    var b := BucketState(Level(calls, k) - Spent(Verdicts(calls), k + 1), calls[0].limit, Reached(calls, k));
    BucketAt(calls, k);
    RefillTokens(b, calls[k + 1].now, Reached(calls, k + 1));
  }

  lemma RefillTokens(b: BucketState, now: Instant, reached: Instant)
    requires b.limit > 0 && b.tokens <= Tokens(b.limit)
    requires reached == if now > b.lastRefill then now else b.lastRefill
    ensures b.limit * (reached - b.lastRefill) >= 0
    ensures var grown := b.tokens + b.limit * (reached - b.lastRefill);
            Refill(b, now).tokens == if grown > Tokens(b.limit) then Tokens(b.limit) else grown
  {
  }

  lemma HeadroomStep(calls: seq<LimiterCall>, verdicts: seq<bool>, j: nat, k: nat)
    requires j < k < |calls| && k <= |verdicts|
    ensures Headroom(calls, verdicts, j, k) == Headroom(calls, verdicts, j, k - 1) - Spent(verdicts, k) + Gained(calls, k)
  {
    Distribute(calls[0].limit, Reached(calls, k), Reached(calls, k - 1), Reached(calls, j));
  }

  lemma Distribute(a: int, x: int, y: int, z: int)
    ensures a * (x - z) == a * (x - y) + a * (y - z)
  {
  }

  /** The lazy counter is the least headroom over every window ending at the call. */
  lemma {:induction false} LevelIsLeastHeadroom(calls: seq<LimiterCall>, k: nat) returns (tightest: nat)
    requires k < |calls| && Limited(calls)
    ensures forall j: nat :: j <= k ==> Level(calls, k) <= Headroom(calls, Verdicts(calls), j, k)
    ensures tightest <= k && Level(calls, k) == Headroom(calls, Verdicts(calls), tightest, k)
    decreases k
  {
    var v := Verdicts(calls);
    assert Headroom(calls, v, k, k) == Tokens(calls[0].limit);
    if k == 0 {
      assert calls[..0] == [];
      tightest := 0;
    } else {
      var before := LevelIsLeastHeadroom(calls, k - 1);
      assert Headroom(calls, v, k - 1, k - 1) == Tokens(calls[0].limit);
      LevelStep(calls, k - 1);
      HeadroomStep(calls, v, before, k);
      forall j | 0 <= j < k
        ensures Level(calls, k) <= Headroom(calls, v, j, k)
      {
        HeadroomStep(calls, v, j, k);
      }
      tightest := if Level(calls, k) == Tokens(calls[0].limit) then k else before;
    }
  }

  lemma AdmittedIffHeadroom(calls: seq<LimiterCall>, k: nat)
    requires k < |calls| && Limited(calls)
    ensures Verdicts(calls)[k] <==> forall j: nat :: j <= k ==> Headroom(calls, Verdicts(calls), j, k) >= Tokens(1)
  {
    var tightest := LevelIsLeastHeadroom(calls, k);
    BucketAt(calls, k);
  }

  /** The admissions from call j on, with call k admitted too, fit the window from j to k: at most the limit for each of the
      window's minutes, and one limit more for the burst. */
  predicate FitsWindow(calls: seq<LimiterCall>, verdicts: seq<bool>, j: nat, k: nat)
    requires j <= k < |calls| && k <= |verdicts|
  {
    (Count(verdicts, j, k) + 1) * 60_000_000_000 <= calls[0].limit * (60_000_000_000 + Reached(calls, k) - Reached(calls, j))
  }

  /** Exactness, with no assumption on the order of `now` values: call k is admitted if and only if the admissions fit every
      window that ends at it. */
  lemma AdmittedExactlyWithinEveryWindow(calls: seq<LimiterCall>, k: nat)
    requires k < |calls| && Limited(calls)
    ensures Verdicts(calls)[k] <==> forall j: nat :: j <= k ==> FitsWindow(calls, Verdicts(calls), j, k)
  {
    hide Verdicts, Reached, Headroom, FitsWindow;
    AdmittedIffHeadroom(calls, k);
    forall j: nat | j <= k
      ensures Headroom(calls, Verdicts(calls), j, k) >= Tokens(1) <==> FitsWindow(calls, Verdicts(calls), j, k)
    {
      HeadroomInNumbers(calls, Verdicts(calls), j, k);
    }
  }

  lemma HeadroomInNumbers(calls: seq<LimiterCall>, verdicts: seq<bool>, j: nat, k: nat)
    requires j <= k < |calls| && k <= |verdicts|
    ensures Headroom(calls, verdicts, j, k) >= Tokens(1) <==> FitsWindow(calls, verdicts, j, k)
  {
    hide Count, Reached;
    AddMinute(calls[0].limit, Reached(calls, k) - Reached(calls, j));
  }

  lemma AddMinute(limit: int, elapsed: int)
    ensures limit * (60_000_000_000 + elapsed) == limit * 60_000_000_000 + limit * elapsed
  {
  }

  /** A call with the limiter off passes and leaves no trace. */
  lemma SwitchedOff(calls: seq<LimiterCall>, k: nat)
    requires k < |calls| && calls[k].limit <= 0
    ensures Verdicts(calls)[k] && StateAfter(calls[..k + 1]) == StateAfter(calls[..k])
  {
    VerdictsOfPrefix(calls, k + 1);
    assert calls[..k + 1][..k] == calls[..k];
    assert Verdicts(calls)[k] == Verdicts(calls[..k + 1])[k];
  }

  /** The burst-plus-rate bound on every window of a list of verdicts. */
  ghost predicate Conforms(calls: seq<LimiterCall>, verdicts: seq<bool>)
    requires |verdicts| == |calls|
  {
    forall j: nat, k: nat :: j <= k < |calls| && verdicts[k] ==> FitsWindow(calls, verdicts, j, k)
  }

  /** The limiter conforms, and no conforming limiter admits more calls by any point of the run. */
  lemma {:induction false} MostPermissive(calls: seq<LimiterCall>, other: seq<bool>, k: nat)
    requires Limited(calls) && |other| == |calls| && k <= |calls|
    requires Conforms(calls, other)
    ensures Conforms(calls, Verdicts(calls))
    ensures Count(other, 0, k) <= Count(Verdicts(calls), 0, k)
    decreases k
  {
    hide Allowance, Verdicts, Level, FitsWindow;
    var v := Verdicts(calls);
    forall j: nat, i: nat | j <= i < |calls| && v[i] ensures FitsWindow(calls, v, j, i) {
      AdmittedExactlyWithinEveryWindow(calls, i);
    }
    if k > 0 {
      MostPermissive(calls, other, k - 1);
      if other[k - 1] && !v[k - 1] {
        var j := LevelIsLeastHeadroom(calls, k - 1);
        BucketAt(calls, k - 1);
        MostPermissive(calls, other, j);
        CountSplits(v, 0, j, k - 1);
        CountSplits(other, 0, j, k - 1);
        HeadroomInNumbers(calls, other, j, k - 1);
        assert Headroom(calls, other, j, k - 1) >= Tokens(1) > Headroom(calls, v, j, k - 1);
      }
    }
  }

  // ---- Denied calls leave no trace ----

  lemma RefillComposes(b: Bucket, t1: Instant, t2: Instant)
    requires t1 <= t2 && b.tokens <= Tokens(b.limit)
    ensures Refill(Refill(b, t1), t2) == Refill(b, t2)
  {
    if b.lastRefill < t1 < t2 {
      Distribute(b.limit, t2, t1, b.lastRefill);
      assert b.limit * (t2 - t1) >= 0;
    }
  }

  /** The verdicts and final state of calls at the times `ts` on an existing bucket. */
  function ServeFrom(b: Bucket, ts: seq<Instant>): (r: (Bucket, seq<bool>))
    ensures |r.1| == |ts|
    decreases ts
  {
    if ts == [] then (b, [])
    else
      var (b', ok) := Take(Refill(b, ts[0]));
      var (final, rest) := ServeFrom(b', ts[1..]);
      (final, [ok] + rest)
  }

  function Admitted(ts: seq<Instant>, verdicts: seq<bool>): seq<Instant>
    requires |ts| == |verdicts|
  {
    if ts == [] then []
    else (if verdicts[0] then [ts[0]] else []) + Admitted(ts[1..], verdicts[1..])
  }

  /** With ordered times, replaying only the admitted calls of a run admits every one of them and leaves a bucket that
      no later call can tell from the one the whole run left. */
  lemma {:induction false} DeniedCallsLeaveNoTrace(b: Bucket, ts: seq<Instant>, later: Instant)
    requires b.tokens <= Tokens(b.limit)
    requires Ordered(ts) && forall i :: 0 <= i < |ts| ==> ts[i] <= later
    ensures var whole := ServeFrom(b, ts);
            var kept := ServeFrom(b, Admitted(ts, whole.1));
            && (forall i :: 0 <= i < |kept.1| ==> kept.1[i])
            && Refill(kept.0, later) == Refill(whole.0, later)
            && Take(Refill(kept.0, later)) == Take(Refill(whole.0, later))
    decreases ts
  {
    if ts != [] {
      var (b', ok) := Take(Refill(b, ts[0]));
      var rest := ServeFrom(b', ts[1..]);
      var whole := ServeFrom(b, ts);
      assert whole.1[1..] == rest.1;
      DeniedCallsLeaveNoTrace(b', ts[1..], later);
      var keptTail := Admitted(ts[1..], rest.1);
      if ok {
        assert Admitted(ts, whole.1)[1..] == keptTail;
      } else {
        assert Admitted(ts, whole.1) == keptTail;
        KeptAreAdmitted(b', ts[1..]);
        SkippedRefill(b, ts[0], keptTail, later);
      }
    }
  }

  lemma {:induction false} KeptAreAdmitted(b: Bucket, ts: seq<Instant>)
    ensures var kept := Admitted(ts, ServeFrom(b, ts).1);
            forall i :: 0 <= i < |kept| ==> kept[i] in ts
    decreases ts
  {
    if ts != [] {
      var b' := Take(Refill(b, ts[0])).0;
      assert ServeFrom(b, ts).1[1..] == ServeFrom(b', ts[1..]).1;
      KeptAreAdmitted(b', ts[1..]);
      var tail := Admitted(ts[1..], ServeFrom(b', ts[1..]).1);
      assert tail == Admitted(ts[1..], ServeFrom(b, ts).1[1..]);
    }
  }

  /** An earlier refill changes neither the verdicts of later calls nor the bucket as later calls see it. */
  lemma SkippedRefill(b: Bucket, t: Instant, ts: seq<Instant>, later: Instant)
    requires b.tokens <= Tokens(b.limit)
    requires forall i :: 0 <= i < |ts| ==> t <= ts[i]
    requires t <= later
    ensures ServeFrom(b, ts).1 == ServeFrom(Refill(b, t), ts).1
    ensures Refill(ServeFrom(b, ts).0, later) == Refill(ServeFrom(Refill(b, t), ts).0, later)
  {
    if ts == [] {
      RefillComposes(b, t, later);
    } else {
      RefillComposes(b, t, ts[0]);
    }
  }
}
