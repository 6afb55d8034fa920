/** The retry worker on its own: how often and how soon it tries, and that it stops. */
module FeeWorker {
  import opened Clock
  import opened Wrappers
  import opened Sums
  import opened Fees
  import opened FeeTable
  import opened FeeSystem
  import FeeFinality

  /** No manual retries, and the worker's updates succeed. */
  predicate WorkerStep(step: Step) { !step.BeginManualRetry? && (step.EndRetry? ==> step.dbOk) }

  ghost predicate WorkerRun(steps: seq<Step>) { forall i :: 0 <= i < |steps| ==> WorkerStep(steps[i]) }

  /** The least time from deferral to the retry that follows the given number of failed ones. */
  function Backoff(failed: nat): Duration {
    RetryDelay(failed) + if failed == 0 then 0 else Backoff(failed - 1)
  }

  lemma WholeBackoff()
    ensures Backoff(4) == 9750 * SECOND
  {
    assert Backoff(1) == 150 * SECOND && Backoff(2) == 630 * SECOND && Backoff(3) == 2550 * SECOND;
  }

  /** What a row says about its attempts and their times. */
  predicate RowTold(s: System, id: int)
    requires id in s.rows
  {
    var fee, n := s.rows[id], Attempts(s, id);
    && fee.maxRetries == MAX_RETRIES && 0 <= fee.retryCount
    && match fee.status
       case Success => fee.retryCount < MAX_RETRIES && n <= fee.retryCount + 1
       case Pending =>
         && fee.retryCount == n < MAX_RETRIES && id in s.deferredAt && fee.nextRetryAt.Some?
         && fee.nextRetryAt.value >= s.deferredAt[id] + Backoff(n)
       case Failed =>
         fee.retryCount == n == MAX_RETRIES && id in s.deferredAt && s.clock >= s.deferredAt[id] + Backoff(MAX_RETRIES - 1)
  }

  /** A charge about to insert. */
  predicate Fresh(s: System, job: Job) {
    job.Opening? && job.at <= s.clock
    && job.fee.maxRetries == MAX_RETRIES && job.fee.retryCount == 0 && !job.fee.status.Failed?
    && (job.fee.status.Pending? ==> job.fee.nextRetryAt == Some(job.at + RetryDelay(0)))
  }

  /** The worker's copy is still the row, and the row is due. */
  predicate Current(s: System, id: int, fee: Fee) {
    id in s.rows && s.rows[id] == fee && WaitingBy(fee, s.clock)
  }

  /** The worker's result, from the row it is still to replace. */
  predicate Follows(row: Fee, fee: Fee) {
    && fee.billing == row.billing && fee.maxRetries == row.maxRetries
    && match fee.status
       case Success => fee.retryCount == row.retryCount
       case Pending =>
         && fee.retryCount == row.retryCount + 1 < row.maxRetries && row.nextRetryAt.Some? && fee.nextRetryAt.Some?
         && fee.nextRetryAt.value >= row.nextRetryAt.value + RetryDelay(fee.retryCount)
       case Failed => fee.retryCount == row.retryCount + 1 >= row.maxRetries
  }

  predicate WorkerJob(s: System, job: Job) {
    match job
    case Opening(_, _) => false
    case Copied(id, fee) => Current(s, id, fee)
    case Settling(id, fee) => id in s.rows && Current(s, id, s.rows[id]) && Follows(s.rows[id], fee)
  }

  ghost predicate QueueFresh(s: System) {
    && (forall i :: 0 <= i < |s.queue| ==> Current(s, s.queue[i].id, s.queue[i].fee))
    && (forall i, j :: 0 <= i < j < |s.queue| ==> s.queue[i].id != s.queue[j].id)
    && (WORKER in s.jobs ==>
          && WorkerJob(s, s.jobs[WORKER])
          && forall i :: 0 <= i < |s.queue| ==> s.queue[i].id != s.jobs[WORKER].id)
  }

  ghost predicate Orderly(s: System) {
    && (forall id :: id in s.rows ==> RowTold(s, id))
    && (forall id :: id in s.attempts ==> id in s.rows)
    && (forall j :: j in s.jobs && j != WORKER ==> Fresh(s, s.jobs[j]))
    && QueueFresh(s)
  }

  // ---- Preservation ----

  lemma RowsUntouched(s: System, s': System)
    requires Orderly(s) && s'.rows == s.rows && s'.attempts == s.attempts && s'.deferredAt == s.deferredAt && s'.clock >= s.clock
    requires forall j :: j in s'.jobs && j != WORKER ==> (j in s.jobs && s'.jobs[j] == s.jobs[j]) || Fresh(s', s'.jobs[j])
    requires QueueFresh(s')
    ensures Orderly(s')
  {
    hide Backoff, RetryDelay, QueueFresh;
    forall id | id in s'.rows ensures RowTold(s', id) { assert RowTold(s, id); }
    forall j | j in s'.jobs && j != WORKER ensures Fresh(s', s'.jobs[j]) {
      assert j in s.jobs && s'.jobs[j] == s.jobs[j] ==> Fresh(s, s.jobs[j]);
    }
  }

  lemma QueueUntouched(s: System, s': System)
    requires QueueFresh(s) && s'.queue == s.queue && s'.clock >= s.clock
    requires WORKER in s'.jobs <==> WORKER in s.jobs
    requires WORKER in s.jobs ==> s'.jobs[WORKER] == s.jobs[WORKER]
    requires forall i :: 0 <= i < |s.queue| ==> s.queue[i].id in s'.rows && s'.rows[s.queue[i].id] == s.rows[s.queue[i].id]
    requires WORKER in s.jobs ==> s.jobs[WORKER].id in s'.rows && s'.rows[s.jobs[WORKER].id] == s.rows[s.jobs[WORKER].id]
    ensures QueueFresh(s')
  {
    hide Follows;
    forall i | 0 <= i < |s.queue| ensures Current(s', s.queue[i].id, s.queue[i].fee) {
      assert Current(s, s.queue[i].id, s.queue[i].fee);
    }
  }

  lemma ListOrderly(s: System, due: seq<int>)
    requires Orderly(s) && CanList(s, due)
    ensures Orderly(Next(s, ListDue(due)))
  {
    var s' := Next(s, ListDue(due));
    assert QueueFresh(s') by {
      assert forall i :: 0 <= i < |due| ==> s'.queue[i] == Due(due[i], s.rows[due[i]]);
    }
    hide CanList;
    RowsUntouched(s, s');
  }

  lemma CallFollows(s: System, id: int, fee: Fee, behaviour: BankBehaviour)
    requires Current(s, id, fee)
    ensures Follows(fee, Retried(fee, behaviour, s.clock))
  {
  }

  lemma WorkerCallOrderly(s: System, behaviour: BankBehaviour)
    requires Orderly(s) && WORKER in s.jobs && s.jobs[WORKER].Copied?
    ensures Orderly(Next(s, CallBank(WORKER, behaviour)))
  {
    hide Retried, Follows, BankCall, RetryDelay;
    var s' := Next(s, CallBank(WORKER, behaviour));
    CallFollows(s, s.jobs[WORKER].id, s.jobs[WORKER].fee, behaviour);
    assert QueueFresh(s') by {
      forall i | 0 <= i < |s.queue| ensures Current(s', s.queue[i].id, s.queue[i].fee) {
        assert Current(s, s.queue[i].id, s.queue[i].fee);
      }
    }
    RowsUntouched(s, s');
  }

  lemma TakeOrderly(s: System)
    requires Orderly(s) && s.queue != [] && WORKER !in s.jobs
    ensures Orderly(Next(s, TakeNext))
  {
    var s' := Next(s, TakeNext);
    assert QueueFresh(s') by {
      assert Current(s, s.queue[0].id, s.queue[0].fee);
      forall i | 0 <= i < |s'.queue| ensures Current(s', s'.queue[i].id, s'.queue[i].fee) && s'.queue[i].id != s.queue[0].id {
        assert Current(s, s.queue[i + 1].id, s.queue[i + 1].fee);
      }
    }
    hide Next;
    RowsUntouched(s, s');
  }

  lemma InsertOrderly(s: System, job: nat, id: int, dbOk: bool)
    requires Orderly(s) && job in s.jobs && s.jobs[job].Opening?
    ensures Orderly(Next(s, EndCharge(job, id, dbOk)))
  {
    hide RetryDelay, Taken, Follows, QueueFresh;
    var s' := Next(s, EndCharge(job, id, dbOk));
    assert job != WORKER by { WorkerNeverOpens(s); }
    assert Fresh(s, s.jobs[job]);
    assert QueueFresh(s') by {
      QueueInRows(s);
      QueueUntouched(s, s');
    }
    forall i | i in s'.rows ensures RowTold(s', i) {
      if i in s.rows { assert RowTold(s, i); }
    }
    forall j | j in s'.jobs && j != WORKER ensures Fresh(s', s'.jobs[j]) { assert Fresh(s, s.jobs[j]); }
  }

  lemma WorkerNeverOpens(s: System)
    requires Orderly(s)
    ensures WORKER in s.jobs ==> !s.jobs[WORKER].Opening?
  {
  }

  lemma QueueInRows(s: System)
    requires QueueFresh(s)
    ensures forall i :: 0 <= i < |s.queue| ==> s.queue[i].id in s.rows
    ensures WORKER in s.jobs ==> !s.jobs[WORKER].Opening? && s.jobs[WORKER].id in s.rows
  {
    assert forall i :: 0 <= i < |s.queue| ==> Current(s, s.queue[i].id, s.queue[i].fee);
  }

  /** What the worker writes is told truly by the new attempt count and times. */
  lemma WrittenRowTold(s: System)
    requires Orderly(s) && WORKER in s.jobs && s.jobs[WORKER].Settling?
    ensures RowTold(Next(s, EndRetry(WORKER, true)), s.jobs[WORKER].id)
  {
    var id, fee := s.jobs[WORKER].id, s.jobs[WORKER].fee;
    assert WorkerJob(s, s.jobs[WORKER]) && RowTold(s, id);
    var row := s.rows[id];
    assert row.status.Pending? && row.retryCount == Attempts(s, id);
    assert !fee.status.Success? ==> Backoff(fee.retryCount) == RetryDelay(fee.retryCount) + Backoff(row.retryCount);
    hide RetryDelay, Backoff;
  }

  lemma WriteOrderly(s: System)
    requires Orderly(s) && WORKER in s.jobs && s.jobs[WORKER].Settling?
    ensures Orderly(Next(s, EndRetry(WORKER, true)))
  {
    var s' := Next(s, EndRetry(WORKER, true));
    var id := s.jobs[WORKER].id;
    WrittenRowTold(s);
    QueueInRows(s);
    hide Backoff, Follows;
    forall i | i in s'.rows ensures RowTold(s', i) {
      if i != id { assert RowTold(s, i); }
    }
    forall i | 0 <= i < |s'.queue| ensures Current(s', s'.queue[i].id, s'.queue[i].fee) {
      assert Current(s, s.queue[i].id, s.queue[i].fee) && s.queue[i].id != id;
    }
    forall j | j in s'.jobs && j != WORKER ensures Fresh(s', s'.jobs[j]) { assert Fresh(s, s.jobs[j]); }
  }

  lemma OrderlyNext(s: System, step: Step)
    requires Orderly(s) && WorkerStep(step)
    ensures Orderly(Next(s, step))
  {
    hide Orderly, QueueFresh, CanList, BankCall, Charged, Retried, Insert, UpdateRetryState, RetryDelay, Backoff, Follows;
    var s' := Next(s, step);
    if s' == s { return; }
    WorkerNeverOpens(s);
    OnlyWorkerRetries(s);
    match step {
      case Tick(_) => QuietOrderly(s, s');
      case BeginCharge(job, billing, behaviour) =>
        ChargedFresh(s, billing, behaviour);
        QuietOrderly(s, s');
      case EndCharge(job, id, dbOk) => InsertOrderly(s, job, id, dbOk);
      case ListDue(due) => ListOrderly(s, due);
      case TakeNext => TakeOrderly(s);
      case CallBank(job, behaviour) => WorkerCallOrderly(s, behaviour);
      case EndRetry(job, _) => WriteOrderly(s);
      case BeginManualRetry(_, _) =>
    }
  }

  lemma OnlyWorkerRetries(s: System)
    requires Orderly(s)
    ensures forall j :: j in s.jobs && !s.jobs[j].Opening? ==> j == WORKER
  {
    assert forall j :: j in s.jobs && j != WORKER ==> Fresh(s, s.jobs[j]);
  }

  lemma ChargedFresh(s: System, billing: Billing, behaviour: BankBehaviour)
    ensures Fresh(s, Opening(Charged(billing, behaviour, s.clock), s.clock))
  {
  }

  /** Time passes, or a charge begins. */
  lemma QuietOrderly(s: System, s': System)
    requires Orderly(s) && s'.rows == s.rows && s'.attempts == s.attempts && s'.deferredAt == s.deferredAt
    requires s'.clock >= s.clock && s'.queue == s.queue
    requires WORKER in s'.jobs <==> WORKER in s.jobs
    requires WORKER in s.jobs ==> s'.jobs[WORKER] == s.jobs[WORKER]
    requires forall j :: j in s'.jobs ==> (j in s.jobs && s'.jobs[j] == s.jobs[j]) || Fresh(s', s'.jobs[j])
    ensures Orderly(s')
  {
    hide Follows, Fresh, RowTold, QueueFresh;
    QueueInRows(s);
    QueueUntouched(s, s');
    RowsUntouched(s, s');
  }

  lemma {:induction false} OrderlyForever(s: System, steps: seq<Step>)
    requires Orderly(s) && WorkerRun(steps)
    ensures Orderly(Execute(s, steps))
    decreases steps
  {
    hide Next, Orderly, WorkerStep;
    if steps != [] {
      assert WorkerStep(steps[0]);
      OrderlyNext(s, steps[0]);
      OrderlyForever(Next(s, steps[0]), steps[1..]);
    }
  }

  /** Left alone, the worker attempts a fee at most five times, and gives up no sooner than 30+120+480+1920+7200 seconds
      after the fee was deferred. */
  lemma FiveAttemptsOverTwoHours(start: Instant, steps: seq<Step>, id: int)
    requires WorkerRun(steps) && id in Execute(Initial(start), steps).rows
    ensures var s := Execute(Initial(start), steps);
            && Attempts(s, id) <= 5
            && (s.rows[id].status.Failed? ==>
                  Attempts(s, id) == 5 && id in s.deferredAt && s.clock - s.deferredAt[id] >= 9750 * SECOND)
            && (s.rows[id].status.Pending? ==>
                  && id in s.deferredAt && s.rows[id].nextRetryAt.Some?
                  && s.rows[id].nextRetryAt.value >= s.deferredAt[id] + Backoff(Attempts(s, id)))
  {
    OrderlyForever(Initial(start), steps);
    WholeBackoff();
    hide Execute, Backoff;
    assert RowTold(Execute(Initial(start), steps), id);
  }

  // ---- Terminal rows, and the budget of retries ----

  /** Without manual retries nobody ever holds a copy of a SUCCESS or FAILED row, so it is final. */
  lemma WorkerNeverHoldsTerminal(start: Instant, steps: seq<Step>, id: int)
    requires WorkerRun(steps)
    requires var s := Execute(Initial(start), steps); id in s.rows && !s.rows[id].status.Pending?
    ensures FeeFinality.Unheld(Execute(Initial(start), steps), id)
  {
    OrderlyForever(Initial(start), steps);
    var s := Execute(Initial(start), steps);
    OnlyWorkerRetries(s);
    hide Execute, RowTold, Follows, Fresh;
    assert WORKER in s.jobs ==> WorkerJob(s, s.jobs[WORKER]);
    assert forall i :: 0 <= i < |s.queue| ==> Current(s, s.queue[i].id, s.queue[i].fee);
  }

  function RetriesLeft(fee: Fee): int { if fee.status.Pending? then fee.maxRetries - fee.retryCount else 0 }

  function LeftAt(rows: Rows): int -> int { (id: int) => if id in rows then RetriesLeft(rows[id]) else 0 }

  /** The retries that pending rows have left. */
  ghost function Budget(rows: Rows): int { Sum(rows.Keys, LeftAt(rows)) }

  lemma OneRowChanges(rows: Rows, rows': Rows, id: int)
    requires id in rows && id in rows' && rows' == rows[id := rows'[id]]
    ensures Budget(rows') - Budget(rows) == RetriesLeft(rows'[id]) - RetriesLeft(rows[id])
  {
    hide Sum, RetriesLeft;
    var others := rows.Keys - {id};
    assert rows.Keys == others + {id} == rows'.Keys;
    SumInsert(others, id, LeftAt(rows));
    SumInsert(others, id, LeftAt(rows'));
    SumSame(others, LeftAt(rows), LeftAt(rows'));
  }

  lemma WrittenRowHasLess(s: System)
    requires Orderly(s) && WORKER in s.jobs && s.jobs[WORKER].Settling?
    ensures var id := s.jobs[WORKER].id;
            var rows' := Next(s, EndRetry(WORKER, true)).rows;
            && id in s.rows && id in rows' && rows' == s.rows[id := rows'[id]]
            && RetriesLeft(rows'[id]) < RetriesLeft(s.rows[id])
            && (!rows'[id].status.Success? ==> RetriesLeft(rows'[id]) == RetriesLeft(s.rows[id]) - 1)
  {
    hide RetryDelay, Backoff;
    var id := s.jobs[WORKER].id;
    assert WorkerJob(s, s.jobs[WORKER]) && RowTold(s, id);
  }

  predicate InsertsPending(s: System, id: int, s': System) {
    id !in s.rows && id in s'.rows && s'.rows[id].status.Pending?
  }

  /** Every attempt of the worker lowers the budget, a failed one by exactly one; nothing but a new deferred fee raises it,
      and that by five. */
  lemma BudgetFalls(s: System, step: Step)
    requires Orderly(s) && WorkerStep(step)
    ensures var s' := Next(s, step);
            && (step == EndRetry(WORKER, true) && WORKER in s.jobs && s.jobs[WORKER].Settling? ==>
                  && Budget(s'.rows) < Budget(s.rows)
                  && (!s.jobs[WORKER].fee.status.Success? ==> Budget(s'.rows) == Budget(s.rows) - 1))
            && (step.EndCharge? ==> Budget(s'.rows) == Budget(s.rows) + if InsertsPending(s, step.id, s') then MAX_RETRIES else 0)
            && (!step.EndCharge? && !step.EndRetry? ==> Budget(s'.rows) == Budget(s.rows))
            && Budget(s.rows) >= 0
  {
    hide Budget, Backoff, RetryDelay, QueueFresh, CanList, BankCall, Charged, Retried, Copies, Follows, Taken, RetriesLeft;
    if step == EndRetry(WORKER, true) && WORKER in s.jobs && s.jobs[WORKER].Settling? {
      WrittenRowHasLess(s);
      OneRowChanges(s.rows, Next(s, step).rows, s.jobs[WORKER].id);
    }
    if step.EndCharge? && step.job in s.jobs && s.jobs[step.job].Opening? && Next(s, step).rows != s.rows {
      WorkerNeverOpens(s);
      assert Fresh(s, s.jobs[step.job]);
      NewRowAdds(s.rows, step.id, s.jobs[step.job].fee);
    }
    BudgetIsNatural(s);
  }

  lemma NewRowAdds(rows: Rows, id: int, fee: Fee)
    requires id !in rows && fee.maxRetries == MAX_RETRIES && fee.retryCount == 0
    ensures Budget(rows[id := fee]) == Budget(rows) + if fee.status.Pending? then MAX_RETRIES else 0
  {
    hide Sum;
    var rows' := rows[id := fee];
    assert rows'.Keys == rows.Keys + {id};
    SumInsert(rows.Keys, id, LeftAt(rows'));
    SumSame(rows.Keys, LeftAt(rows), LeftAt(rows'));
  }

  lemma BudgetIsNatural(s: System)
    requires Orderly(s)
    ensures Budget(s.rows) >= 0
  {
    hide Sum, Backoff;
    forall id | id in s.rows ensures LeftAt(s.rows)(id) >= 0 { assert RowTold(s, id); }
    SumAtLeastZero(s.rows.Keys, LeftAt(s.rows));
  }
}
