/** No fee starves in the retry queue, however many new fees arrive and whatever retries fail. */
module FeeQueue {
  import opened Clock
  import opened Wrappers
  import opened Sums
  import opened Fees
  import opened FeeTable
  import opened FeeSystem
  import opened FeeLedger

  /** Ids the worker has listed and not yet written back. */
  function Held(s: System): set<int> {
    (set i | 0 <= i < |s.queue| :: s.queue[i].id)
    + (if WORKER in s.jobs && !s.jobs[WORKER].Opening? then {s.jobs[WORKER].id} else {})
  }

  /** Other rows waiting at or before time x that the worker does not hold. */
  function AheadRows(s: System, target: int, x: Instant): set<int> {
    set id | id in s.rows && id != target && WaitingBy(s.rows[id], x) && id !in Held(s)
  }

  /** Jobs that have heard from the bank and are about to write a row waiting at or before time x. */
  function AheadJobs(s: System, x: Instant): set<nat> {
    set j | j in s.jobs && !s.jobs[j].Copied? && WaitingBy(s.jobs[j].fee, x)
  }

  /** How much is ahead of the target: with nothing in flight, the number of other due fees at or before it. */
  function Ahead(s: System, target: int, x: Instant): nat { |AheadRows(s, target, x)| + |AheadJobs(s, x)| }

  /** The target is due since x, and no retry of it is under way. */
  ghost predicate Waits(s: System, target: int, x: Instant) {
    && target in s.rows && s.rows[target].status.Pending? && s.rows[target].retryCount < s.rows[target].maxRetries
    && s.rows[target].nextRetryAt == Some(x) && x <= s.clock
    && target !in Held(s)
    && (forall j :: j in s.jobs && !s.jobs[j].Opening? ==> s.jobs[j].id != target)
    && (WORKER in s.jobs ==> !s.jobs[WORKER].Opening?)
  }

  /** The worker's updates succeed, and nobody retries the target by hand. */
  predicate Fair(target: int, step: Step) {
    match step
    case EndRetry(job, dbOk) => job == WORKER ==> dbOk
    case BeginManualRetry(_, id) => id != target
    case _ => true
  }

  ghost predicate Lists(s: System, step: Step) { step.ListDue? && CanList(s, step.due) }

  // ---- Counting ----

  lemma AddsAtMostOne<T>(a: set<T>, b: set<T>, x: T)
    requires a <= b + {x}
    ensures |a| <= |b| + 1
  {
    SubsetIsSmaller(a, b + {x});
  }

  lemma LosesOne<T>(a: set<T>, b: set<T>, x: T)
    requires x in b && a <= b - {x}
    ensures |a| + 1 <= |b|
  {
    SubsetIsSmaller(a, b - {x});
  }

  lemma {:induction false} DistinctAreAsMany(due: seq<int>, ids: set<int>)
    requires forall i, j :: 0 <= i < j < |due| ==> due[i] != due[j]
    requires forall i :: 0 <= i < |due| ==> due[i] in ids
    ensures |due| <= |ids|
    decreases |due|
  {
    if due != [] {
      var last := due[|due| - 1];
      DistinctAreAsMany(due[..|due| - 1], ids - {last});
    }
  }

  // ---- One step ----

  /** A full list that misses the target holds only rows ahead of it. */
  lemma ListedAreAhead(s: System, target: int, x: Instant, due: seq<int>)
    requires Waits(s, target, x) && CanList(s, due) && target !in due
    ensures |due| == BATCH && forall i :: 0 <= i < |due| ==> due[i] in AheadRows(s, target, x)
  {
    assert Held(s) == {};
    assert WaitingBy(s.rows[target], s.clock);
  }

  lemma HeldWhenListed(s: System, due: seq<int>)
    requires CanList(s, due)
    ensures var s' := Next(s, ListDue(due));
            && s'.rows == s.rows && s'.jobs == s.jobs && s'.clock == s.clock && s'.attempts == s.attempts
            && (forall i :: 0 <= i < |due| ==> due[i] in Held(s')) && (forall id :: id in Held(s') ==> id in due)
  {
    var s' := Next(s, ListDue(due));
    forall i | 0 <= i < |due| ensures due[i] in Held(s') { assert s'.queue[i].id == due[i]; }
  }

  lemma ListProgress(s: System, target: int, x: Instant, due: seq<int>)
    requires Waits(s, target, x) && CanList(s, due)
    ensures var s' := Next(s, ListDue(due));
            target in Held(s') || (Waits(s', target, x) && Ahead(s', target, x) + BATCH <= Ahead(s, target, x))
  {
    var s' := Next(s, ListDue(due));
    HeldWhenListed(s, due);
    if target !in due {
      ListedAreAhead(s, target, x, due);
      assert Held(s) == {};
      hide CanList, IsDueList, WaitingBy, Next, Held;
      var before, after := AheadRows(s, target, x), AheadRows(s', target, x);
      assert after <= before && forall i :: 0 <= i < |due| ==> due[i] in before - after;
      DistinctDue(s, due);
      DistinctAreAsMany(due, before - after);
      assert before == after + (before - after);
      assert AheadJobs(s', x) == AheadJobs(s, x);
    }
  }

  lemma DistinctDue(s: System, due: seq<int>)
    requires CanList(s, due)
    ensures forall i, j :: 0 <= i < j < |due| ==> due[i] != due[j]
  {
  }

  /** A job hears from the bank, or a new one begins: what it is about to write waits for longer than x. */
  lemma JobsProgress(s: System, s': System, target: int, x: Instant)
    requires Waits(s, target, x)
    requires s'.rows == s.rows && s'.clock >= s.clock
    requires forall id :: id in Held(s) <==> id in Held(s')
    requires forall j :: j in s'.jobs ==>
      || (j in s.jobs && s'.jobs[j] == s.jobs[j])
      || ((s'.jobs[j].Copied? || !WaitingBy(s'.jobs[j].fee, x)) && (s'.jobs[j].Opening? ==> j != WORKER))
    requires forall j :: j in s'.jobs && !s'.jobs[j].Opening? ==> s'.jobs[j].id != target
    ensures Waits(s', target, x) && Ahead(s', target, x) <= Ahead(s, target, x)
  {
    hide Held, WaitingBy;
    assert AheadRows(s', target, x) == AheadRows(s, target, x);
    SubsetIsSmaller(AheadJobs(s', x), AheadJobs(s, x));
  }

  lemma NewTimesAreLater(s: System, target: int, x: Instant, fee: Fee, billing: Billing, behaviour: BankBehaviour)
    requires Waits(s, target, x)
    ensures !WaitingBy(Charged(billing, behaviour, s.clock), x)
    ensures !WaitingBy(Retried(fee, behaviour, s.clock), x)
  {
  }

  /** A job ends without changing any row. */
  lemma LeaveProgress(s: System, s': System, target: int, x: Instant, job: nat)
    requires Waits(s, target, x) && job in s.jobs && job != WORKER
    requires s'.clock == s.clock && s'.jobs == s.jobs - {job} && s'.queue == s.queue && s'.rows == s.rows
    ensures Waits(s', target, x) && Ahead(s', target, x) <= Ahead(s, target, x)
  {
    HeldAfterWrite(s, s', job);
    hide Held, WaitingBy;
    assert AheadRows(s', target, x) == AheadRows(s, target, x);
    SubsetIsSmaller(AheadJobs(s', x), AheadJobs(s, x));
  }

  /** A write moves at most what the job was about to write from the jobs to the rows. */
  lemma WriteProgress(s: System, s': System, target: int, x: Instant, job: nat, id: int)
    requires Waits(s, target, x) && job in s.jobs && !s.jobs[job].Copied? && id != target
    requires s.jobs[job].Settling? ==> s.jobs[job].id == id
    requires s'.clock == s.clock && s'.jobs == s.jobs - {job} && s'.queue == s.queue
    requires s'.rows.Keys == s.rows.Keys + {id}
    requires forall i :: i in s.rows && i != id ==> s'.rows[i] == s.rows[i]
    requires WaitingBy(s'.rows[id], x) ==> WaitingBy(s.jobs[job].fee, x)
    ensures Waits(s', target, x) && Ahead(s', target, x) <= Ahead(s, target, x)
  {
    HeldAfterWrite(s, s', job);
    RowsAfterWrite(s, s', target, x, job, id);
    hide Held, WaitingBy, AheadRows;
    var jobs, jobs' := AheadJobs(s, x), AheadJobs(s', x);
    if job in jobs {
      LosesOne(jobs', jobs, job);
      AddsAtMostOne(AheadRows(s', target, x), AheadRows(s, target, x), id);
    } else {
      SubsetIsSmaller(jobs', jobs);
      SubsetIsSmaller(AheadRows(s', target, x), AheadRows(s, target, x));
    }
  }

  lemma RowsAfterWrite(s: System, s': System, target: int, x: Instant, job: nat, id: int)
    requires Waits(s, target, x) && job in s.jobs && id != target && (s.jobs[job].Settling? ==> s.jobs[job].id == id)
    requires !s.jobs[job].Copied? && s'.jobs == s.jobs - {job} && s'.queue == s.queue
    requires s'.rows.Keys == s.rows.Keys + {id}
    requires forall i :: i in s.rows && i != id ==> s'.rows[i] == s.rows[i]
    ensures AheadRows(s', target, x) <= AheadRows(s, target, x) + {id}
    ensures !WaitingBy(s'.rows[id], x) ==> AheadRows(s', target, x) <= AheadRows(s, target, x)
  {
    HeldAfterWrite(s, s', job);
    hide Held, WaitingBy;
  }

  lemma HeldAfterWrite(s: System, s': System, job: nat)
    requires job in s.jobs && s'.jobs == s.jobs - {job} && s'.queue == s.queue
    ensures Held(s') <= Held(s)
    ensures job != WORKER ==> Held(s') == Held(s)
    ensures job == WORKER && !s.jobs[job].Opening? ==> Held(s) <= Held(s') + {s.jobs[job].id}
  {
  }

  lemma TakeProgress(s: System, target: int, x: Instant)
    requires Waits(s, target, x) && s.queue != [] && WORKER !in s.jobs
    ensures var s' := Next(s, TakeNext);
            && Waits(s', target, x) && Ahead(s', target, x) <= Ahead(s, target, x)
            && forall id :: id in Held(s) <==> id in Held(s')
  {
    var s' := Next(s, TakeNext);
    HeldAfterTake(s);
    hide Held, WaitingBy;
    assert AheadRows(s', target, x) == AheadRows(s, target, x);
    assert AheadJobs(s', x) == AheadJobs(s, x);
  }

  lemma HeldAfterTake(s: System)
    requires s.queue != [] && WORKER !in s.jobs
    ensures forall id :: id in Held(s) <==> id in Held(Next(s, TakeNext))
    ensures s.queue[0].id in Held(s)
  {
    var s' := Next(s, TakeNext);
    forall id | id in Held(s) ensures id in Held(s') {
      var i :| 0 <= i < |s.queue| && s.queue[i].id == id;
      assert i > 0 ==> s'.queue[i - 1].id == id;
    }
    forall id | id in Held(s') ensures id in Held(s) {
      if id != s.queue[0].id {
        var i :| 0 <= i < |s'.queue| && s'.queue[i].id == id;
        assert s.queue[i + 1].id == id;
      }
    }
  }

  lemma StepProgress(s: System, target: int, x: Instant, step: Step)
    requires Waits(s, target, x) && Fair(target, step) && Shaped(s)
    ensures var s' := Next(s, step);
            target in Held(s') || (Waits(s', target, x)
              && Ahead(s', target, x) + (if Lists(s, step) then BATCH else 0) <= Ahead(s, target, x))
  {
    hide WaitingBy, Held, AheadRows, AheadJobs, BankCall, Charged, Retried, IsDueList, Insert, UpdateRetryState;
    var s' := Next(s, step);
    if s' == s && !Lists(s, step) { return; }
    match step {
      case Tick(_) => JobsProgress(s, s', target, x) by { SameHeld(s, s'); }
      case ListDue(due) => ListProgress(s, target, x, due);
      case TakeNext => TakeProgress(s, target, x);
      case BeginManualRetry(_, _) => JobsProgress(s, s', target, x) by { SameHeld(s, s'); }
      case BeginCharge(job, billing, behaviour) =>
        NewTimesAreLater(s, target, x, s.rows[target], billing, behaviour);
        SameHeld(s, s');
        JobsProgress(s, s', target, x);
      case CallBank(job, behaviour) =>
        NewTimesAreLater(s, target, x, s.jobs[job].fee, s.rows[target].billing, behaviour);
        SameHeld(s, s');
        JobsProgress(s, s', target, x);
      case EndCharge(job, id, dbOk) => EndChargeProgress(s, target, x, job, id, dbOk);
      case EndRetry(job, dbOk) => EndRetryProgress(s, target, x, job, dbOk);
    }
  }

  lemma SameHeld(s: System, s': System)
    requires s'.queue == s.queue
    requires WORKER in s'.jobs <==> WORKER in s.jobs
    requires WORKER in s.jobs ==> !s.jobs[WORKER].Opening? && !s'.jobs[WORKER].Opening? && s'.jobs[WORKER].id == s.jobs[WORKER].id
    ensures Held(s') == Held(s)
  {
  }

  lemma EndChargeProgress(s: System, target: int, x: Instant, job: nat, id: int, dbOk: bool)
    requires Waits(s, target, x) && job in s.jobs && s.jobs[job].Opening?
    ensures var s' := Next(s, EndCharge(job, id, dbOk));
            Waits(s', target, x) && Ahead(s', target, x) <= Ahead(s, target, x)
  {
    hide WaitingBy, Held, AheadRows, AheadJobs, Ahead, Taken;
    var s' := Next(s, EndCharge(job, id, dbOk));
    if s'.rows == s.rows {
      LeaveProgress(s, s', target, x, job);
    } else {
      WriteProgress(s, s', target, x, job, id);
    }
  }

  lemma EndRetryProgress(s: System, target: int, x: Instant, job: nat, dbOk: bool)
    requires Waits(s, target, x) && Shaped(s) && job in s.jobs && s.jobs[job].Settling? && (job == WORKER ==> dbOk)
    ensures var s' := Next(s, EndRetry(job, dbOk));
            Waits(s', target, x) && Ahead(s', target, x) <= Ahead(s, target, x)
  {
    hide Held, AheadRows, AheadJobs, Ahead;
    var s' := Next(s, EndRetry(job, dbOk));
    if !dbOk {
      LeaveProgress(s, s', target, x, job);
    } else {
      assert Sound(s.jobs[job].fee) && Sound(s.rows[s.jobs[job].id]) by { SoundParts(s, job); }
      WriteProgress(s, s', target, x, job, s.jobs[job].id);
    }
  }

  lemma SoundParts(s: System, job: nat)
    requires Shaped(s) && job in s.jobs && s.jobs[job].Settling?
    ensures s.jobs[job].id in s.rows && Sound(FeeOf(s.jobs[job])) && Sound(s.rows[s.jobs[job].id])
  {
  }

  // ---- Whole runs ----

  ghost function Listings(s: System, steps: seq<Step>): nat
    decreases steps
  {
    if steps == [] then 0 else (if Lists(s, steps[0]) then 1 else 0) + Listings(Next(s, steps[0]), steps[1..])
  }

  ghost predicate FairRun(target: int, steps: seq<Step>) { forall i :: 0 <= i < |steps| ==> Fair(target, steps[i]) }

  /** Held by the worker, or attempted since. */
  ghost predicate Reached(s: System, target: int, before: nat) { target in Held(s) || Attempts(s, target) > before }

  lemma ReachedStays(s: System, target: int, before: nat, step: Step)
    requires Reached(s, target, before) && Attempts(s, target) >= before
    ensures Reached(Next(s, step), target, before) && Attempts(Next(s, step), target) >= Attempts(s, target)
  {
    hide WaitingBy, BankCall, Charged, Retried, IsDueList, Insert, UpdateRetryState;
    var s' := Next(s, step);
    match step {
      case TakeNext => if s' != s { HeldAfterTake(s); }
      case _ =>
    }
  }

  lemma {:induction false} ReachedForever(s: System, target: int, before: nat, steps: seq<Step>)
    requires Reached(s, target, before) && Attempts(s, target) >= before
    ensures Reached(Execute(s, steps), target, before)
    decreases steps
  {
    hide Next, Reached, Attempts;
    if steps != [] {
      ReachedStays(s, target, before, steps[0]);
      ReachedForever(Next(s, steps[0]), target, before, steps[1..]);
    }
  }

  lemma WaitsAttempts(s: System, target: int, x: Instant, step: Step)
    requires Waits(s, target, x)
    ensures Attempts(Next(s, step), target) == Attempts(s, target)
  {
    hide WaitingBy, Held, BankCall, Charged, Retried, IsDueList, Insert, UpdateRetryState, Copies;
  }

  /** Until the worker holds the target, every listing takes a full batch out of what is ahead of it. */
  lemma {:induction false} ReachedOrFewListings(s: System, target: int, x: Instant, steps: seq<Step>)
    requires Waits(s, target, x) && Shaped(s) && FairRun(target, steps)
    ensures Reached(Execute(s, steps), target, Attempts(s, target))
         || Listings(s, steps) * BATCH <= Ahead(s, target, x)
    decreases steps
  {
    hide Waits, Shaped, Ahead, Held, Next, Lists, Attempts, Fair;
    if steps != [] {
      var s1 := Next(s, steps[0]);
      assert Fair(target, steps[0]);
      StepProgress(s, target, x, steps[0]);
      ShapedNext(s, steps[0]);
      WaitsAttempts(s, target, x, steps[0]);
      if target in Held(s1) {
        assert Reached(s1, target, Attempts(s, target));
        ReachedForever(s1, target, Attempts(s, target), steps[1..]);
      } else {
        ReachedOrFewListings(s1, target, x, steps[1..]);
      }
    }
  }

  /** No starvation: a fee due since x, with r fees ahead of it (due rows at or before x, or such rows about to be written),
      is attempted by the time the worker has finished more than r / 20 runs, whatever charges, manual retries of other
      fees and failures come in between. */
  lemma NoStarvation(s: System, target: int, x: Instant, steps: seq<Step>)
    requires Shaped(s) && Waits(s, target, x) && FairRun(target, steps)
    requires var s' := Execute(s, steps); s'.queue == [] && WORKER !in s'.jobs
    requires Listings(s, steps) >= Ahead(s, target, x) / 20 + 1
    ensures Attempts(Execute(s, steps), target) > Attempts(s, target)
  {
    ReachedOrFewListings(s, target, x, steps);
    hide Ahead, Listings, Execute;
    assert Held(Execute(s, steps)) == {};
  }
}
