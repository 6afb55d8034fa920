/** The fee service, on a live table and bank. What the outside decides (the bank's behaviour, the time, whether the
    database accepts a write, the answer of the due query) comes in as arguments. */
module FeeService {
  import opened Clock
  import opened Wrappers
  import opened Fees
  import opened FeeTable
  import opened FeeSystem

  class SmartBank {
    var ledger: Ledger

    constructor ()
      ensures ledger == map[]
    {
      ledger := map[];
    }

    method ChargeFee(key: string, debit: Debit, behaviour: BankBehaviour) returns (reference: Option<string>)
      modifies this
      ensures ledger == BankCall(old(ledger), key, debit, behaviour)
      ensures reference == if behaviour.Settle? then Some(behaviour.reference) else None
    {
      if !behaviour.Decline? && key !in ledger {
        ledger := ledger[key := debit];
      }
      reference := if behaviour.Settle? then Some(behaviour.reference) else None;
    }
  }

  class Repository {
    var rows: Rows
    var nextId: int

    ghost predicate Valid()
      reads this
    {
      forall id :: id in rows ==> id < nextId
    }

    constructor ()
      ensures Valid() && rows == map[] && nextId == 1
    {
      rows := map[];
      nextId := 1;
    }

    method Create(fee: Fee, dbOk: bool) returns (created: Option<int>)
      requires Valid()
      modifies this
      ensures Valid()
      ensures rows == if dbOk then Insert(old(rows), old(nextId), fee) else old(rows)
      ensures created == if dbOk && !Taken(old(rows), fee.billing.requestID) then Some(old(nextId)) else None
    {
      if !dbOk || Taken(rows, fee.billing.requestID) {
        return None;
      }
      rows := rows[nextId := fee];
      nextId := nextId + 1;
      return Some(nextId - 1);
    }

    method UpdateRetryState(id: int, fee: Fee, dbOk: bool) returns (ok: bool)
      requires Valid()
      modifies this
      ensures Valid() && ok == dbOk
      ensures rows == if dbOk then FeeTable.UpdateRetryState(old(rows), id, fee) else old(rows)
    {
      if dbOk && id in rows {
        rows := rows[id := rows[id].(
          status := fee.status, retryCount := fee.retryCount, nextRetryAt := fee.nextRetryAt,
          smartBankRef := fee.smartBankRef, errorMessage := fee.errorMessage)];
      }
      return dbOk;
    }
  }

  /** What the outside does to one retry. */
  datatype Outcome = Outcome(behaviour: BankBehaviour, now: Instant, dbOk: bool)

  /** Table and ledger after the first n listed fees have been retried, one after the other. */
  function RetryAll(rows: Rows, ledger: Ledger, due: seq<Due>, outcomes: seq<Outcome>, n: nat): (Rows, Ledger)
    requires n <= |due| == |outcomes|
  {
    if n == 0 then (rows, ledger)
    else
      var (rows', ledger') := RetryAll(rows, ledger, due, outcomes, n - 1);
      var copy, o := due[n - 1], outcomes[n - 1];
      (if o.dbOk then FeeTable.UpdateRetryState(rows', copy.id, Retried(copy.fee, o.behaviour, o.now)) else rows',
       BankCall(ledger', FeeKey(copy.fee.billing.requestID), DebitOf(copy.fee.billing), o.behaviour))
  }

  datatype ChargeResult = ChargeFailed | Charge(amount: int, deferred: bool)

  class Service {
    const rate: real
    const repo: Repository
    const bank: SmartBank

    constructor (rate: real, repo: Repository, bank: SmartBank)
      ensures this.rate == rate && this.repo == repo && this.bank == bank
    {
      this.rate := rate;
      this.repo := repo;
      this.bank := bank;
    }

    /** Charges the fee of a transaction whose amount the downstream reply may or may not have given. */
    method Charge(requestID: string, userID: string, sourceApp: string, principalApp: string, amount: Option<int>,
                  behaviour: BankBehaviour, now: Instant, dbOk: bool) returns (result: ChargeResult)
      requires repo.Valid()
      modifies repo, bank
      ensures repo.Valid()
      ensures amount.None? ==> result.ChargeFailed? && repo.rows == old(repo.rows) && bank.ledger == old(bank.ledger)
      ensures amount.Some? ==>
        var billing := BillingFor(requestID, userID, sourceApp, principalApp, amount.value, rate);
        && bank.ledger == BankCall(old(bank.ledger), FeeKey(requestID), DebitOf(billing), behaviour)
        && repo.rows == (if dbOk then Insert(old(repo.rows), old(repo.nextId), Charged(billing, behaviour, now)) else old(repo.rows))
        && result == (if dbOk && !Taken(old(repo.rows), requestID)
                      then ChargeResult.Charge(billing.feeAmount, !behaviour.Settle?) else ChargeFailed)
      ensures amount.Some? ==>
        exists n :: IsFee(n, amount.value, rate)
          && bank.ledger == (if behaviour.Decline? || "fee-" + requestID in old(bank.ledger) then old(bank.ledger)
                             else old(bank.ledger)["fee-" + requestID := Debit(userID, n)])
          && (if dbOk && forall id :: id in old(repo.rows) ==> old(repo.rows)[id].billing.requestID != requestID then
                && result == ChargeResult.Charge(n, !behaviour.Settle?)
                && old(repo.nextId) in repo.rows
                && var row := repo.rows[old(repo.nextId)];
                   && row.billing.requestID == requestID && row.billing.userID == userID
                   && row.billing.transactionAmount == amount.value && row.billing.feeRate == rate && row.billing.feeAmount == n
                   && repo.rows == old(repo.rows)[old(repo.nextId) := row]
              else result.ChargeFailed? && repo.rows == old(repo.rows))
    {
      if amount.None? {
        return ChargeFailed;
      }
      var feeAmount := CalculateFee(amount.value, rate);
      FeeIsNearestHalfUp(amount.value, rate, feeAmount);
      assert IsFee(feeAmount, amount.value, rate);
      var billing := Billing(requestID, userID, SourceAppOrDefault(sourceApp, principalApp), amount.value, feeAmount, rate);
      var fee := Fee(billing, Success, 0, MAX_RETRIES, None, None, None);
      var reference := bank.ChargeFee("fee-" + requestID, Debit(userID, feeAmount), behaviour);
      if reference.None? {
        fee := fee.(status := Pending, nextRetryAt := Some(now + RetryDelay(0)), errorMessage := Some(behaviour.error));
      } else {
        fee := fee.(smartBankRef := Some(ReferenceOr(reference.value, requestID)));
      }
      var id := repo.Create(fee, dbOk);
      if id.None? {
        return ChargeFailed;
      }
      return ChargeResult.Charge(feeAmount, reference.None?);
    }

    /** Retries a fee from the copy that was read, whatever its status. */
    method Retry(id: int, copy: Fee, o: Outcome) returns (fee: Fee, ok: bool)
      requires repo.Valid()
      modifies repo, bank
      ensures repo.Valid() && ok == o.dbOk && fee == Retried(copy, o.behaviour, o.now)
      ensures bank.ledger == BankCall(old(bank.ledger), FeeKey(copy.billing.requestID), DebitOf(copy.billing), o.behaviour)
      ensures repo.rows == if o.dbOk then FeeTable.UpdateRetryState(old(repo.rows), id, fee) else old(repo.rows)
      ensures bank.ledger == if o.behaviour.Decline? || "fee-" + copy.billing.requestID in old(bank.ledger) then old(bank.ledger)
                             else old(bank.ledger)["fee-" + copy.billing.requestID := Debit(copy.billing.userID, copy.billing.feeAmount)]
      ensures fee.billing == copy.billing && (fee.status.Success? <==> o.behaviour.Settle?)
    {
      fee := copy;
      var reference := bank.ChargeFee("fee-" + copy.billing.requestID, DebitOf(copy.billing), o.behaviour);
      if reference.None? {
        fee := fee.(retryCount := fee.retryCount + 1, errorMessage := Some(o.behaviour.error));
        if fee.retryCount >= fee.maxRetries {
          fee := fee.(status := Failed, nextRetryAt := None);
        } else {
          fee := fee.(status := Pending, nextRetryAt := Some(o.now + RetryDelay(fee.retryCount)));
        }
      } else {
        fee := fee.(status := Success, nextRetryAt := None, errorMessage := None,
                    smartBankRef := Some(ReferenceOr(reference.value, copy.billing.requestID)));
      }
      ok := repo.UpdateRetryState(id, fee, o.dbOk);
    }

    /** One run of the worker over the listed fees; a failed one does not stop the rest. */
    method RetryDue(due: seq<Due>, outcomes: seq<Outcome>)
      requires repo.Valid() && |outcomes| == |due|
      modifies repo, bank
      ensures repo.Valid()
      ensures (repo.rows, bank.ledger) == RetryAll(old(repo.rows), old(bank.ledger), due, outcomes, |due|)
    {
      for i := 0 to |due|
        invariant repo.Valid()
        invariant (repo.rows, bank.ledger) == RetryAll(old(repo.rows), old(bank.ledger), due, outcomes, i)
      {
        var _, _ := Retry(due[i].id, due[i].fee, outcomes[i]);
      }
    }
  }

  // ---- The interleaving system refines the service ----

  function RunSteps(outcomes: seq<Outcome>, n: nat): seq<Step>
    requires n <= |outcomes|
  {
    if n == 0 then []
    else
      var o := outcomes[n - 1];
      RunSteps(outcomes, n - 1) + [Tick(o.now), TakeNext, CallBank(WORKER, o.behaviour), EndRetry(WORKER, o.dbOk)]
  }

  lemma ExecuteFour(s: System, a: Step, b: Step, c: Step, d: Step)
    ensures Execute(s, [a, b, c, d]) == Next(Next(Next(Next(s, a), b), c), d)
  {
    hide Next;
    assert [a, b] + [c, d] == [a, b, c, d];
    ExecuteAppend(s, [a, b], [c, d]);
    ExecuteTwo(s, a, b);
    ExecuteTwo(Next(Next(s, a), b), c, d);
  }

  ghost predicate TimesRise(start: Instant, outcomes: seq<Outcome>) {
    && (forall i :: 0 <= i < |outcomes| ==> start <= outcomes[i].now)
    && (forall i, j :: 0 <= i < j < |outcomes| ==> outcomes[i].now <= outcomes[j].now)
  }

  /** With nobody in between, the worker's steps over its queue take table and ledger where `RetryDue` takes them. */
  lemma {:induction false} WorkerAloneIsRetryDue(s: System, outcomes: seq<Outcome>, n: nat)
    requires n <= |s.queue| == |outcomes| && WORKER !in s.jobs && TimesRise(s.clock, outcomes)
    ensures var s' := Execute(s, RunSteps(outcomes, n));
            && (s'.rows, s'.ledger) == RetryAll(s.rows, s.ledger, s.queue, outcomes, n)
            && s'.queue == s.queue[n..] && s'.jobs == s.jobs
            && s'.clock == if n == 0 then s.clock else outcomes[n - 1].now
    decreases n
  {
    if n > 0 {
      WorkerAloneIsRetryDue(s, outcomes, n - 1);
      var o, s1 := outcomes[n - 1], Execute(s, RunSteps(outcomes, n - 1));
      ExecuteAppend(s, RunSteps(outcomes, n - 1), [Tick(o.now), TakeNext, CallBank(WORKER, o.behaviour), EndRetry(WORKER, o.dbOk)]);
      ExecuteFour(s1, Tick(o.now), TakeNext, CallBank(WORKER, o.behaviour), EndRetry(WORKER, o.dbOk));
      OneAttempt(s1, o);
    }
  }

  lemma OneAttempt(s: System, o: Outcome)
    requires s.queue != [] && WORKER !in s.jobs && o.now >= s.clock
    ensures var s' := Next(Next(Next(Next(s, Tick(o.now)), TakeNext), CallBank(WORKER, o.behaviour)), EndRetry(WORKER, o.dbOk));
            var copy := s.queue[0];
            && s'.rows == (if o.dbOk then FeeTable.UpdateRetryState(s.rows, copy.id, Retried(copy.fee, o.behaviour, o.now)) else s.rows)
            && s'.ledger == BankCall(s.ledger, FeeKey(copy.fee.billing.requestID), DebitOf(copy.fee.billing), o.behaviour)
            && s'.queue == s.queue[1..] && s'.jobs == s.jobs && s'.clock == o.now
  {
    hide BankCall, Retried, FeeTable.UpdateRetryState;
    var s1 := Next(Next(s, Tick(o.now)), TakeNext);
    assert s1.jobs[WORKER] == Copied(s.queue[0].id, s.queue[0].fee);
    var s2 := Next(s1, CallBank(WORKER, o.behaviour));
    assert s2.jobs[WORKER] == Settling(s.queue[0].id, Retried(s.queue[0].fee, o.behaviour, o.now));
    assert s2.jobs - {WORKER} == s.jobs;
  }

  /** With nobody in between, a charge's two steps take table and ledger where `Charge` takes them, and stamp a deferred
      fee's deferral with the time of the charge. */
  lemma ChargeAloneIsCharge(s: System, job: nat, id: int, billing: Billing, behaviour: BankBehaviour, dbOk: bool)
    requires job != WORKER && job !in s.jobs && id !in s.rows
    ensures var s' := Execute(s, [BeginCharge(job, billing, behaviour), EndCharge(job, id, dbOk)]);
            && s'.ledger == BankCall(s.ledger, FeeKey(billing.requestID), DebitOf(billing), behaviour)
            && s'.rows == (if dbOk then Insert(s.rows, id, Charged(billing, behaviour, s.clock)) else s.rows)
            && s'.jobs == s.jobs && s'.queue == s.queue && s'.clock == s.clock
            && (dbOk && !Taken(s.rows, billing.requestID) ==> s'.deferredAt == s.deferredAt[id := s.clock])
  {
    hide BankCall, Taken, RetryDelay;
    ExecuteTwo(s, BeginCharge(job, billing, behaviour), EndCharge(job, id, dbOk));
    var s1 := Next(s, BeginCharge(job, billing, behaviour));
    assert s1.jobs[job] == Opening(Charged(billing, behaviour, s.clock), s.clock) && s1.jobs - {job} == s.jobs;
  }

  /** With nobody in between, a manual retry's steps take table and ledger where `Retry` takes them. */
  lemma ManualRetryAloneIsRetry(s: System, job: nat, id: int, o: Outcome)
    requires job != WORKER && job !in s.jobs && id in s.rows && o.now >= s.clock
    ensures var s' := Execute(s, [BeginManualRetry(job, id), Tick(o.now), CallBank(job, o.behaviour), EndRetry(job, o.dbOk)]);
            var copy := s.rows[id];
            && s'.ledger == BankCall(s.ledger, FeeKey(copy.billing.requestID), DebitOf(copy.billing), o.behaviour)
            && s'.rows == (if o.dbOk then FeeTable.UpdateRetryState(s.rows, id, Retried(copy, o.behaviour, o.now)) else s.rows)
            && s'.jobs == s.jobs && s'.queue == s.queue && s'.attempts == s.attempts
  {
    hide BankCall, Retried, FeeTable.UpdateRetryState;
    ExecuteFour(s, BeginManualRetry(job, id), Tick(o.now), CallBank(job, o.behaviour), EndRetry(job, o.dbOk));
    var s2 := Next(Next(s, BeginManualRetry(job, id)), Tick(o.now));
    assert s2.jobs[job] == Copied(id, s.rows[id]);
    var s3 := Next(s2, CallBank(job, o.behaviour));
    assert s3.jobs[job] == Settling(id, Retried(s.rows[id], o.behaviour, o.now)) && s3.jobs - {job} == s.jobs;
  }
}
