/** The per-user transaction guard: a cooldown since the last admission and a counter per calendar day. */
module TransactionGuard {
  import opened Clock
  import opened Wrappers
  import opened Tally
  import opened KeyedStore

  /** `today` is the calendar date of `now`; formatting it is left to the caller. */
  datatype GuardCall = GuardCall(now: Instant, today: int)
  datatype GuardState = GuardState(last: Option<Instant>, day: Option<int>, count: nat)
  datatype GuardVerdict = Admitted | CoolingDown(wait: Duration) | DailyLimitReached(wait: Duration)

  /** The configured limit if there is one, and 10 otherwise. */
  function EffectiveLimit(dailyLimit: int): (limit: nat)
    ensures dailyLimit > 0 ==> limit == dailyLimit
    ensures dailyLimit <= 0 ==> limit == 10
  {
    if dailyLimit <= 0 then 10 else dailyLimit
  }

  function Allow(state: Option<GuardState>, cooldown: Duration, dailyLimit: int, call: GuardCall)
    : (Option<GuardState>, GuardVerdict)
  {
    var s := match state case Some(existing) => existing case None => GuardState(None, None, 0);
    var counted := if s.day == Some(call.today) then s else s.(day := Some(call.today), count := 0);
    if counted.last.Some? && call.now < counted.last.value + cooldown then
      (Some(counted), CoolingDown(counted.last.value + cooldown - call.now))
    else if counted.count >= EffectiveLimit(dailyLimit) then
      (Some(counted), DailyLimitReached(HOUR))
    else
      (Some(counted.(last := Some(call.now), count := counted.count + 1)), Admitted)
  }

  // ---- Runs of one user's calls ----

  function StateAfter(calls: seq<GuardCall>, cooldown: Duration, dailyLimit: int): Option<GuardState> {
    if calls == [] then None
    else Allow(StateAfter(calls[..|calls| - 1], cooldown, dailyLimit), cooldown, dailyLimit, calls[|calls| - 1]).0
  }

  function Verdicts(calls: seq<GuardCall>, cooldown: Duration, dailyLimit: int): (verdicts: seq<bool>)
    ensures |verdicts| == |calls|
  {
    if calls == [] then []
    else
      var earlier := calls[..|calls| - 1];
      Verdicts(earlier, cooldown, dailyLimit)
      + [Allow(StateAfter(earlier, cooldown, dailyLimit), cooldown, dailyLimit, calls[|calls| - 1]).1.Admitted?]
  }

  /** Where the unbroken stretch of calls of call k's date, ending at call k, begins. */
  function StretchStart(calls: seq<GuardCall>, k: nat): (start: nat)
    requires k < |calls|
    ensures start <= k
  {
    if k > 0 && calls[k - 1].today == calls[k].today then StretchStart(calls, k - 1) else k
  }

  /** The counter counts the admissions of the current stretch. */
  ghost predicate CountsStretch(calls: seq<GuardCall>, verdicts: seq<bool>, state: Option<GuardState>)
    requires calls != [] && |verdicts| == |calls|
  {
    var k := |calls| - 1;
    && state.Some?
    && state.value.day == Some(calls[k].today)
    && state.value.count == Count(verdicts, StretchStart(calls, k), k + 1)
  }

  /** The last admission, if any, is the latest of all. */
  ghost predicate KeepsLatest(calls: seq<GuardCall>, verdicts: seq<bool>, state: Option<GuardState>)
    requires |verdicts| == |calls|
  {
    var last := if state.Some? then state.value.last else None;
    && (last.None? ==> forall i :: 0 <= i < |calls| ==> !verdicts[i])
    && (last.Some? ==>
          && (exists i :: 0 <= i < |calls| && verdicts[i] && calls[i].now == last.value)
          && (forall i :: 0 <= i < |calls| && verdicts[i] ==> calls[i].now <= last.value))
  }

  lemma {:induction false} StateCountsStretch(calls: seq<GuardCall>, cooldown: Duration, dailyLimit: int)
    requires calls != []
    ensures CountsStretch(calls, Verdicts(calls, cooldown, dailyLimit), StateAfter(calls, cooldown, dailyLimit))
    decreases |calls|
  {
    var k := |calls| - 1;
    var earlier := calls[..k];
    var v, v0 := Verdicts(calls, cooldown, dailyLimit), Verdicts(earlier, cooldown, dailyLimit);
    assert v[..k] == v0;
    if k > 0 {
      StateCountsStretch(earlier, cooldown, dailyLimit);
      if calls[k - 1].today == calls[k].today {
        StretchOfTake(calls, k, k - 1);
        CountOfPrefix(v0, v, StretchStart(calls, k - 1), k);
      }
    }
  }

  lemma {:induction false} StateKeepsLatest(calls: seq<GuardCall>, cooldown: Duration, dailyLimit: int)
    requires cooldown >= 0
    ensures KeepsLatest(calls, Verdicts(calls, cooldown, dailyLimit), StateAfter(calls, cooldown, dailyLimit))
    decreases |calls|
  {
    if calls != [] {
      var k := |calls| - 1;
      var earlier := calls[..k];
      StateKeepsLatest(earlier, cooldown, dailyLimit);
      LatestStep(calls, Verdicts(earlier, cooldown, dailyLimit), StateAfter(earlier, cooldown, dailyLimit), cooldown, dailyLimit);
    }
  }

  lemma LatestStep(calls: seq<GuardCall>, verdicts: seq<bool>, state: Option<GuardState>, cooldown: Duration, dailyLimit: int)
    requires calls != [] && |verdicts| == |calls| - 1 && cooldown >= 0
    requires KeepsLatest(calls[..|calls| - 1], verdicts, state)
    ensures var (state', verdict) := Allow(state, cooldown, dailyLimit, calls[|calls| - 1]);
            KeepsLatest(calls, verdicts + [verdict.Admitted?], state')
  {
    hide EffectiveLimit;
    var k := |calls| - 1;
    var (state', verdict) := Allow(state, cooldown, dailyLimit, calls[k]);
    var v := verdicts + [verdict.Admitted?];
    if verdict.Admitted? {
      assert v[k] && state'.value.last == Some(calls[k].now);
    } else if state.Some? && state.value.last.Some? {
      var i :| 0 <= i < k && verdicts[i] && calls[..k][i].now == state.value.last.value;
      assert v[i] && calls[i].now == state'.value.last.value;
    }
  }

  lemma {:induction false} StretchOfTake(calls: seq<GuardCall>, n: nat, k: nat)
    requires k < n <= |calls|
    ensures StretchStart(calls[..n], k) == StretchStart(calls, k)
    decreases k
  {
    if k > 0 { StretchOfTake(calls, n, k - 1); }
  }

  lemma {:induction false} VerdictsOfPrefix(calls: seq<GuardCall>, cooldown: Duration, dailyLimit: int, k: nat)
    requires k <= |calls|
    ensures Verdicts(calls[..k], cooldown, dailyLimit) == Verdicts(calls, cooldown, dailyLimit)[..k]
    decreases |calls|
  {
    if k < |calls| {
      var earlier := calls[..|calls| - 1];
      assert earlier[..k] == calls[..k];
      VerdictsOfPrefix(earlier, cooldown, dailyLimit, k);
    } else {
      assert calls[..k] == calls;
    }
  }

  lemma LastAdmittedExactly(calls: seq<GuardCall>, cooldown: Duration, dailyLimit: int)
    requires calls != [] && cooldown >= 0
    ensures var v, k := Verdicts(calls, cooldown, dailyLimit), |calls| - 1;
            v[k] <==> && (forall i :: 0 <= i < k && v[i] ==> calls[k].now >= calls[i].now + cooldown)
                      && Count(v, StretchStart(calls, k), k) < EffectiveLimit(dailyLimit)
  {
    var k := |calls| - 1;
    var earlier := calls[..k];
    var v, v0 := Verdicts(calls, cooldown, dailyLimit), Verdicts(earlier, cooldown, dailyLimit);
    var state := StateAfter(earlier, cooldown, dailyLimit);
    assert v[..k] == v0 && v[k] == Allow(state, cooldown, dailyLimit, calls[k]).1.Admitted?;
    assert k == 0 ==> state == None;
    hide Verdicts, StateAfter, EffectiveLimit;
    if k > 0 {
      StateCountsStretch(earlier, cooldown, dailyLimit);
      if calls[k - 1].today == calls[k].today {
        StretchOfTake(calls, k, k - 1);
        CountOfPrefix(v0, v, StretchStart(calls, k - 1), k);
      }
    }
    StateKeepsLatest(earlier, cooldown, dailyLimit);
    SpacedIffAfterLatest(calls, v, state, cooldown);
  }

  lemma SpacedIffAfterLatest(calls: seq<GuardCall>, verdicts: seq<bool>, state: Option<GuardState>, cooldown: Duration)
    requires calls != [] && |verdicts| == |calls|
    requires KeepsLatest(calls[..|calls| - 1], verdicts[..|calls| - 1], state)
    ensures var k := |calls| - 1;
            (forall i :: 0 <= i < k && verdicts[i] ==> calls[k].now >= calls[i].now + cooldown)
            <==> (state.Some? && state.value.last.Some? ==> calls[k].now >= state.value.last.value + cooldown)
  {
    var k := |calls| - 1;
    if state.Some? && state.value.last.Some? {
      var i :| 0 <= i < k && verdicts[..k][i] && calls[..k][i].now == state.value.last.value;
      assert verdicts[i];
    }
    assert forall i :: 0 <= i < k ==> verdicts[..k][i] == verdicts[i] && calls[..k][i] == calls[i];
  }

  /** Exactness for every order of `now` values and dates: a call is admitted if and only if it is at least the cooldown
      after every earlier admission, and fewer than the limit were admitted in the unbroken stretch of its own date. */
  lemma AdmittedExactly(calls: seq<GuardCall>, cooldown: Duration, dailyLimit: int, k: nat)
    requires k < |calls| && cooldown >= 0
    ensures var v := Verdicts(calls, cooldown, dailyLimit);
            v[k] <==> && (forall i :: 0 <= i < k && v[i] ==> calls[k].now >= calls[i].now + cooldown)
                      && Count(v, StretchStart(calls, k), k) < if dailyLimit > 0 then dailyLimit else 10
  {
    var upTo := calls[..k + 1];
    VerdictsOfPrefix(calls, cooldown, dailyLimit, k + 1);
    LastAdmittedExactly(upTo, cooldown, dailyLimit);
    StretchOfTake(calls, k + 1, k);
    var v, v1 := Verdicts(calls, cooldown, dailyLimit), Verdicts(upTo, cooldown, dailyLimit);
    assert forall i :: 0 <= i <= k ==> v1[i] == v[i] && upTo[i] == calls[i];
    CountOfPrefix(v1, v, StretchStart(calls, k), k);
  }

  /** Admissions of one user are at least the cooldown apart, in whatever order the `now` values arrive. */
  lemma AdmissionsAreSpaced(calls: seq<GuardCall>, cooldown: Duration, dailyLimit: int, i: nat, j: nat)
    requires i < j < |calls| && cooldown >= 0
    requires Verdicts(calls, cooldown, dailyLimit)[i] && Verdicts(calls, cooldown, dailyLimit)[j]
    ensures calls[j].now >= calls[i].now + cooldown
  {
    AdmittedExactly(calls, cooldown, dailyLimit, j);
  }

  /** The number of calls before k that were admitted on the given date. */
  function AdmittedOn(calls: seq<GuardCall>, verdicts: seq<bool>, date: int, k: nat): nat
    requires k <= |calls| == |verdicts|
  {
    if k == 0 then 0
    else AdmittedOn(calls, verdicts, date, k - 1) + if verdicts[k - 1] && calls[k - 1].today == date then 1 else 0
  }

  function DatesOf(calls: seq<GuardCall>): (dates: seq<int>)
    ensures |dates| == |calls| && forall i :: 0 <= i < |calls| ==> dates[i] == calls[i].today
  {
    seq(|calls|, i requires 0 <= i < |calls| => calls[i].today)
  }

  /** No call of another date falls between two calls of one date. Dates in order are one such pattern. */
  ghost predicate Unbroken(dates: seq<int>) {
    forall i, j, k :: 0 <= i < j < k < |dates| && dates[i] == dates[k] ==> dates[j] == dates[i]
  }

  lemma {:induction false} StretchIsWholeDate(calls: seq<GuardCall>, verdicts: seq<bool>, k: nat)
    requires k < |calls| == |verdicts| && Unbroken(DatesOf(calls))
    ensures Count(verdicts, StretchStart(calls, k), k) == AdmittedOn(calls, verdicts, calls[k].today, k)
    decreases k
  {
    if k > 0 {
      if calls[k - 1].today == calls[k].today {
        StretchIsWholeDate(calls, verdicts, k - 1);
      } else {
        var dates := DatesOf(calls);
        assert forall i :: 0 <= i < k - 1 && dates[i] == dates[k] ==> dates[k - 1] == dates[i];
        NoneOnOtherDates(calls, verdicts, calls[k].today, k);
      }
    }
  }

  lemma {:induction false} NoneOnOtherDates(calls: seq<GuardCall>, verdicts: seq<bool>, date: int, k: nat)
    requires k <= |calls| == |verdicts|
    requires forall i :: 0 <= i < k ==> calls[i].today != date
    ensures AdmittedOn(calls, verdicts, date, k) == 0
  {
    if k > 0 { NoneOnOtherDates(calls, verdicts, date, k - 1); }
  }

  /** With dates unbroken, the stretch is the whole date: a call is admitted if and only if it clears every earlier
      admission by the cooldown and fewer than the limit were admitted that day. */
  lemma AdmittedExactlyPerDate(calls: seq<GuardCall>, cooldown: Duration, dailyLimit: int, k: nat)
    requires k < |calls| && cooldown >= 0 && Unbroken(DatesOf(calls))
    ensures var v := Verdicts(calls, cooldown, dailyLimit);
            v[k] <==> && (forall i :: 0 <= i < k && v[i] ==> calls[k].now >= calls[i].now + cooldown)
                      && AdmittedOn(calls, v, calls[k].today, k) < if dailyLimit > 0 then dailyLimit else 10
  {
    AdmittedExactly(calls, cooldown, dailyLimit, k);
    StretchIsWholeDate(calls, Verdicts(calls, cooldown, dailyLimit), k);
  }

  /** With dates unbroken, no date ever sees more admissions than the limit. */
  lemma {:induction false} DailyLimitHolds(calls: seq<GuardCall>, cooldown: Duration, dailyLimit: int, date: int, k: nat)
    requires k <= |calls| && cooldown >= 0 && Unbroken(DatesOf(calls))
    ensures AdmittedOn(calls, Verdicts(calls, cooldown, dailyLimit), date, k) <= if dailyLimit > 0 then dailyLimit else 10
    decreases k
  {
    hide Unbroken, EffectiveLimit, Verdicts, DatesOf;
    if k > 0 {
      DailyLimitHolds(calls, cooldown, dailyLimit, date, k - 1);
      AdmittedExactlyPerDate(calls, cooldown, dailyLimit, k - 1);
    }
  }

  ghost predicate KeepsDailyLimit(calls: seq<GuardCall>, cooldown: Duration, dailyLimit: int) {
    var limit := if dailyLimit > 0 then dailyLimit else 10;
    forall date :: AdmittedOn(calls, Verdicts(calls, cooldown, dailyLimit), date, |calls|) <= limit
  }

  /** Calls of the given dates, each the cooldown after the one before. */
  function CallsOn(dates: seq<int>, cooldown: Duration): (calls: seq<GuardCall>)
    ensures DatesOf(calls) == dates
    ensures forall i :: 0 <= i < |calls| ==> calls[i] == GuardCall(i * cooldown, dates[i])
  {
    seq(|dates|, i requires 0 <= i < |dates| => GuardCall(i * cooldown, dates[i]))
  }

  lemma {:induction false} Later(i: nat, k: nat, cooldown: Duration)
    requires i < k && cooldown >= 0
    ensures k * cooldown >= i * cooldown + cooldown
  {
    assert k * cooldown == (k - 1) * cooldown + cooldown;
    if i < k - 1 { Later(i, k - 1, cooldown); }
  }

  /** Spaced calls meet only the counter: the first of every stretch is admitted. */
  lemma StretchOpensAdmitted(dates: seq<int>, cooldown: Duration, k: nat)
    requires k < |dates| && cooldown >= 0
    ensures var calls := CallsOn(dates, cooldown);
            Verdicts(calls, cooldown, 1)[StretchStart(calls, k)] && dates[StretchStart(calls, k)] == dates[k]
  {
    var calls := CallsOn(dates, cooldown);
    var start := StretchStart(calls, k);
    StretchOpens(calls, k);
    AdmittedExactly(calls, cooldown, 1, start);
    forall i | 0 <= i < start ensures calls[start].now >= calls[i].now + cooldown {
      Later(i, start, cooldown);
    }
  }

  lemma {:induction false} StretchOpens(calls: seq<GuardCall>, k: nat)
    requires k < |calls|
    ensures var start := StretchStart(calls, k);
            StretchStart(calls, start) == start && forall i :: start <= i <= k ==> calls[i].today == calls[k].today
  {
    if k > 0 && calls[k - 1].today == calls[k].today { StretchOpens(calls, k - 1); }
  }

  lemma {:induction false} AdmissionsAdd(calls: seq<GuardCall>, verdicts: seq<bool>, date: int, i: nat, k: nat, n: nat)
    requires i < k < n <= |calls| == |verdicts|
    requires verdicts[i] && verdicts[k] && calls[i].today == date == calls[k].today
    ensures AdmittedOn(calls, verdicts, date, n) >= 2
  {
    if n > k + 1 {
      AdmissionsAdd(calls, verdicts, date, i, k, n - 1);
    } else {
      AdmittedOnce(calls, verdicts, date, i, k);
    }
  }

  lemma {:induction false} AdmittedOnce(calls: seq<GuardCall>, verdicts: seq<bool>, date: int, i: nat, n: nat)
    requires i < n <= |calls| == |verdicts| && verdicts[i] && calls[i].today == date
    ensures AdmittedOn(calls, verdicts, date, n) >= 1
  {
    if n > i + 1 { AdmittedOnce(calls, verdicts, date, i, n - 1); }
  }

  /** A date that another date interrupts opens two stretches, and a limit of one admits both their first calls. */
  lemma BrokenDateExceedsLimit(dates: seq<int>, cooldown: Duration, i: nat, j: nat, k: nat)
    requires i < j < k < |dates| && dates[i] == dates[k] != dates[j] && cooldown >= 0
    ensures !KeepsDailyLimit(CallsOn(dates, cooldown), cooldown, 1)
  {
    var calls := CallsOn(dates, cooldown);
    StretchOpensAdmitted(dates, cooldown, i);
    StretchOpensAdmitted(dates, cooldown, k);
    StretchOpens(calls, k);
    assert StretchStart(calls, k) > j;
    AdmissionsAdd(calls, Verdicts(calls, cooldown, 1), dates[i], StretchStart(calls, i), StretchStart(calls, k), |calls|);
  }

  /** The daily limit, exactly: for every cooldown and every pattern of dates, all runs with those dates, at any times and
      under any limit, keep every date within the limit if and only if the pattern is unbroken. */
  lemma DailyLimitHoldsIff(dates: seq<int>, cooldown: Duration)
    requires cooldown >= 0
    ensures (forall calls, dailyLimit :: DatesOf(calls) == dates ==> KeepsDailyLimit(calls, cooldown, dailyLimit))
       <==> Unbroken(dates)
  {
    if Unbroken(dates) {
      forall calls, dailyLimit | DatesOf(calls) == dates ensures KeepsDailyLimit(calls, cooldown, dailyLimit) {
        forall date
          ensures AdmittedOn(calls, Verdicts(calls, cooldown, dailyLimit), date, |calls|) <= if dailyLimit > 0 then dailyLimit else 10
        {
          DailyLimitHolds(calls, cooldown, dailyLimit, date, |calls|);
        }
      }
    } else {
      var i, j, k :| 0 <= i < j < k < |dates| && dates[i] == dates[k] && dates[j] != dates[i];
      BrokenDateExceedsLimit(dates, cooldown, i, j, k);
    }
  }

  /** The order of dates matters: one late call of the previous date, though denied, restarts the counter and the day
      then admits more than its limit. */
  lemma LateDateRestartsCounter()
    ensures var calls := [GuardCall(100, 1), GuardCall(99, 0), GuardCall(110, 1)];
            var v := Verdicts(calls, 10, 1);
            v == [true, false, true] && AdmittedOn(calls, v, 1, 3) > 1
  {
    var calls := [GuardCall(100, 1), GuardCall(99, 0), GuardCall(110, 1)];
    assert calls[..2] == [calls[0], calls[1]] && calls[..2][..1] == [calls[0]];
    assert StateAfter([calls[0]], 10, 1) == Some(GuardState(Some(100), Some(1), 1));
    assert StateAfter(calls[..2], 10, 1) == Some(GuardState(Some(100), Some(0), 0));
    assert Verdicts([calls[0]], 10, 1) == [true];
    assert Verdicts(calls[..2], 10, 1) == [true, false];
    var v := Verdicts(calls, 10, 1);
    assert v == [true, false, true];
    assert AdmittedOn(calls, v, 1, 1) == 1;
    assert AdmittedOn(calls, v, 1, 2) == 1;
  }
}
