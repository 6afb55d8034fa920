/** Conservation of money, and the shape of every row, under any interleaving with stale writes and lost replies. */
module FeeLedger {
  import opened Clock
  import opened Wrappers
  import opened Sums
  import opened Fees
  import opened FeeTable
  import opened FeeSystem

  // ---- Shapes and billing ----

  function FeeOf(job: Job): Fee { job.fee }

  predicate Sound(fee: Fee) { WellShaped(fee) && fee.maxRetries == MAX_RETRIES }

  ghost predicate Shaped(s: System) {
    && (forall id :: id in s.rows ==> Sound(s.rows[id]))
    && (forall j :: j in s.jobs ==> Sound(FeeOf(s.jobs[j])))
    && (forall i :: 0 <= i < |s.queue| ==> s.queue[i].id in s.rows && Sound(s.queue[i].fee))
    && (forall j :: j in s.jobs && !s.jobs[j].Opening? ==> s.jobs[j].id in s.rows)
  }

  lemma ShapedNext(s: System, step: Step)
    requires Shaped(s)
    ensures Shaped(Next(s, step))
  {
    hide BankCall, Taken, RetryDelay;
  }

  /** Rows are never removed and their billing columns never change. */
  ghost predicate BillingKept(rows: Rows, rows': Rows) {
    forall id :: id in rows ==> id in rows' && rows'[id].billing == rows[id].billing && rows'[id].maxRetries == rows[id].maxRetries
  }

  lemma BillingKeptNext(s: System, step: Step)
    ensures BillingKept(s.rows, Next(s, step).rows)
  {
    hide BankCall, IsDueList, Taken, RetryDelay, Copies;
  }

  /** In every run, manual retries and stale writes included: a SUCCESS row has a reference, no next retry and no error; a
      PENDING row has a next retry, an error and retries left; a FAILED row has no next retry, an error and none left; and
      no row ever disappears or changes its billing columns. */
  lemma {:induction false} RowsKeepShapeAndBilling(s: System, steps: seq<Step>)
    requires Shaped(s)
    ensures Shaped(Execute(s, steps))
    ensures BillingKept(s.rows, Execute(s, steps).rows)
    decreases steps
  {
    hide Next, Shaped;
    if steps != [] {
      ShapedNext(s, steps[0]);
      BillingKeptNext(s, steps[0]);
      RowsKeepShapeAndBilling(Next(s, steps[0]), steps[1..]);
    }
  }

  // ---- Fees ----

  /** The fee of the billing is the one reckoned from its amount and rate. */
  predicate Reckoned(billing: Billing) { IsFee(billing.feeAmount, billing.transactionAmount, billing.feeRate) }

  ghost predicate ReckonedRun(steps: seq<Step>) {
    forall i :: 0 <= i < |steps| && steps[i].BeginCharge? ==> Reckoned(steps[i].billing)
  }

  ghost predicate AllReckoned(s: System) {
    && (forall id :: id in s.rows ==> Reckoned(s.rows[id].billing))
    && (forall j :: j in s.jobs && s.jobs[j].Opening? ==> Reckoned(s.jobs[j].fee.billing))
  }

  lemma ReckonedNext(s: System, step: Step)
    requires AllReckoned(s) && (step.BeginCharge? ==> Reckoned(step.billing))
    ensures AllReckoned(Next(s, step))
  {
    hide BankCall, IsDueList, Taken, RetryDelay, Copies, IsFee;
  }

  /** If every charge reckons its fee, every row ever stored names the nearest fee of its own amount and rate, whatever is
      retried or overwritten. */
  lemma {:induction false} RowsStayReckoned(s: System, steps: seq<Step>)
    requires AllReckoned(s) && ReckonedRun(steps)
    ensures AllReckoned(Execute(s, steps))
    decreases steps
  {
    hide Next, AllReckoned, Reckoned;
    if steps != [] {
      ReckonedNext(s, steps[0]);
      RowsStayReckoned(Next(s, steps[0]), steps[1..]);
    }
  }

  // ---- The ledger ----

  /** Every charge under a request id names the debit that the id stands for. Fresh ids are the special case in which each
      id is charged once. */
  type Billings = string -> Debit

  predicate Consistent(bills: Billings, billing: Billing) { DebitOf(billing) == bills(billing.requestID) }

  ghost predicate ConsistentRun(bills: Billings, steps: seq<Step>) {
    forall i :: 0 <= i < |steps| && steps[i].BeginCharge? ==> Consistent(bills, steps[i].billing)
  }

  /** A fee that says SUCCESS has been debited. */
  predicate Paid(ledger: Ledger, fee: Fee) { fee.status.Success? ==> FeeKey(fee.billing.requestID) in ledger }

  predicate FeeBacked(bills: Billings, ledger: Ledger, fee: Fee) { Consistent(bills, fee.billing) && Paid(ledger, fee) }

  /** A copy belongs to its row. */
  predicate CopyBacked(bills: Billings, s: System, id: int, fee: Fee) {
    FeeBacked(bills, s.ledger, fee) && id in s.rows && s.rows[id].billing == fee.billing
  }

  predicate JobBacked(bills: Billings, s: System, job: Job) {
    if job.Opening? then FeeBacked(bills, s.ledger, job.fee) else CopyBacked(bills, s, job.id, job.fee)
  }

  ghost predicate Named(bills: Billings, ledger: Ledger) {
    forall key :: key in ledger ==> exists r :: key == FeeKey(r) && ledger[key] == bills(r)
  }

  ghost predicate RowsBacked(bills: Billings, ledger: Ledger, rows: Rows) {
    && (forall id :: id in rows ==> FeeBacked(bills, ledger, rows[id]))
    && (forall i, j :: i in rows && j in rows && rows[i].billing.requestID == rows[j].billing.requestID ==> i == j)
  }

  ghost predicate Backed(bills: Billings, s: System) {
    && Named(bills, s.ledger) && RowsBacked(bills, s.ledger, s.rows)
    && (forall j :: j in s.jobs ==> JobBacked(bills, s, s.jobs[j]))
    && (forall i :: 0 <= i < |s.queue| ==> CopyBacked(bills, s, s.queue[i].id, s.queue[i].fee))
  }

  lemma CallKeepsLedger(bills: Billings, ledger: Ledger, billing: Billing, behaviour: BankBehaviour)
    requires Consistent(bills, billing)
    requires Named(bills, ledger)
    ensures var ledger' := BankCall(ledger, FeeKey(billing.requestID), DebitOf(billing), behaviour);
            && Named(bills, ledger')
            && (forall key :: key in ledger ==> key in ledger')
            && (!behaviour.Decline? ==> FeeKey(billing.requestID) in ledger')
  {
  }

  /** More debits take nothing away. */
  lemma LedgerGrows(bills: Billings, s: System, ledger: Ledger)
    requires Backed(bills, s) && Named(bills, ledger) && forall key :: key in s.ledger ==> key in ledger
    ensures Backed(bills, s.(ledger := ledger))
  {
    hide FeeKey, Consistent, Named;
    var s' := s.(ledger := ledger);
    assert forall j :: j in s.jobs ==> JobBacked(bills, s, s.jobs[j]);
    assert forall i :: 0 <= i < |s.queue| ==> CopyBacked(bills, s, s.queue[i].id, s.queue[i].fee);
  }

  lemma InsertBacked(bills: Billings, s: System, id: int, fee: Fee)
    requires Backed(bills, s) && FeeBacked(bills, s.ledger, fee)
    ensures Backed(bills, s.(rows := Insert(s.rows, id, fee)))
  {
    hide FeeKey, Consistent, Named, FeeBacked;
    var s' := s.(rows := Insert(s.rows, id, fee));
    forall j | j in s.jobs ensures JobBacked(bills, s', s.jobs[j]) { assert JobBacked(bills, s, s.jobs[j]); }
    forall i | 0 <= i < |s.queue| ensures CopyBacked(bills, s', s.queue[i].id, s.queue[i].fee) {
      assert CopyBacked(bills, s, s.queue[i].id, s.queue[i].fee);
    }
  }

  lemma UpdateBacked(bills: Billings, s: System, id: int, fee: Fee)
    requires Backed(bills, s) && CopyBacked(bills, s, id, fee)
    ensures Backed(bills, s.(rows := UpdateRetryState(s.rows, id, fee)))
  {
    hide FeeKey, Consistent, Named;
    var s' := s.(rows := UpdateRetryState(s.rows, id, fee));
    assert FeeBacked(bills, s.ledger, s'.rows[id]);
    forall j | j in s.jobs ensures JobBacked(bills, s', s.jobs[j]) { assert JobBacked(bills, s, s.jobs[j]); }
    forall i | 0 <= i < |s.queue| ensures CopyBacked(bills, s', s.queue[i].id, s.queue[i].fee) {
      assert CopyBacked(bills, s, s.queue[i].id, s.queue[i].fee);
    }
  }

  lemma JobsBacked(bills: Billings, s: System, s': System)
    requires Backed(bills, s) && s'.ledger == s.ledger && s'.rows == s.rows
    requires forall j :: j in s'.jobs ==> JobBacked(bills, s, s'.jobs[j])
    requires forall i :: 0 <= i < |s'.queue| ==> CopyBacked(bills, s, s'.queue[i].id, s'.queue[i].fee)
    ensures Backed(bills, s')
  {
    hide FeeBacked, Named, RowsBacked;
    forall j | j in s'.jobs ensures JobBacked(bills, s', s'.jobs[j]) { assert JobBacked(bills, s, s'.jobs[j]); }
    forall i | 0 <= i < |s'.queue| ensures CopyBacked(bills, s', s'.queue[i].id, s'.queue[i].fee) {
      assert CopyBacked(bills, s, s'.queue[i].id, s'.queue[i].fee);
    }
  }

  lemma BackedParts(bills: Billings, s: System)
    requires Backed(bills, s)
    ensures forall j :: j in s.jobs ==> JobBacked(bills, s, s.jobs[j])
    ensures forall i :: 0 <= i < |s.queue| ==> CopyBacked(bills, s, s.queue[i].id, s.queue[i].fee)
    ensures forall id :: id in s.rows ==> CopyBacked(bills, s, id, s.rows[id])
    ensures Named(bills, s.ledger)
  {
  }

  lemma DebitStepBacked(bills: Billings, s: System, billing: Billing, behaviour: BankBehaviour, job: nat, job': Job)
    requires Backed(bills, s) && Consistent(bills, billing)
    requires var ledger := BankCall(s.ledger, FeeKey(billing.requestID), DebitOf(billing), behaviour);
             (!behaviour.Decline? ==> FeeKey(billing.requestID) in ledger) ==> JobBacked(bills, s.(ledger := ledger), job')
    ensures var ledger := BankCall(s.ledger, FeeKey(billing.requestID), DebitOf(billing), behaviour);
            Backed(bills, s.(ledger := ledger, jobs := s.jobs[job := job']))
  {
    hide BankCall, Backed, JobBacked, CopyBacked, Named, FeeKey, Consistent;
    var ledger := BankCall(s.ledger, FeeKey(billing.requestID), DebitOf(billing), behaviour);
    var s1 := s.(ledger := ledger);
    BackedParts(bills, s);
    CallKeepsLedger(bills, s.ledger, billing, behaviour);
    LedgerGrows(bills, s, ledger);
    BackedParts(bills, s1);
    JobsBacked(bills, s1, s1.(jobs := s.jobs[job := job']));
  }

  lemma BackedNext(bills: Billings, s: System, step: Step)
    requires Backed(bills, s)
    requires step.BeginCharge? ==> Consistent(bills, step.billing)
    ensures Backed(bills, Next(s, step))
  {
    hide BankCall, RetryDelay, FeeKey, Consistent, Backed, Named, Insert, UpdateRetryState, Copies;
    var s' := Next(s, step);
    if s' == s { return; }
    BackedParts(bills, s);
    match step {
      case BeginCharge(job, billing, behaviour) => DebitStepBacked(bills, s, billing, behaviour, job, s'.jobs[job]);
      case CallBank(job, behaviour) =>
        assert JobBacked(bills, s, s.jobs[job]);
        DebitStepBacked(bills, s, s.jobs[job].fee.billing, behaviour, job, s'.jobs[job]);
      case EndCharge(job, id, dbOk) => EndChargeBacked(bills, s, job, id, dbOk);
      case EndRetry(job, dbOk) => EndRetryBacked(bills, s, job, dbOk);
      case _ => JobsBacked(bills, s, s');
    }
  }

  lemma EndChargeBacked(bills: Billings, s: System, job: nat, id: int, dbOk: bool)
    requires Backed(bills, s) && job in s.jobs && s.jobs[job].Opening?
    ensures Backed(bills, Next(s, EndCharge(job, id, dbOk)))
  {
    hide FeeBacked, CopyBacked, Backed, Insert;
    var s' := Next(s, EndCharge(job, id, dbOk));
    BackedParts(bills, s);
    InsertBacked(bills, s, id, s.jobs[job].fee);
    BackedParts(bills, s.(rows := s'.rows));
    JobsBacked(bills, s.(rows := s'.rows), s');
  }

  lemma EndRetryBacked(bills: Billings, s: System, job: nat, dbOk: bool)
    requires Backed(bills, s) && job in s.jobs && s.jobs[job].Settling?
    ensures Backed(bills, Next(s, EndRetry(job, dbOk)))
  {
    hide FeeBacked, CopyBacked, Backed, UpdateRetryState;
    var s' := Next(s, EndRetry(job, dbOk));
    BackedParts(bills, s);
    UpdateBacked(bills, s, s.jobs[job].id, s.jobs[job].fee);
    BackedParts(bills, s.(rows := s'.rows));
    JobsBacked(bills, s.(rows := s'.rows), s');
  }

  lemma {:induction false} BackedForever(bills: Billings, s: System, steps: seq<Step>)
    requires Backed(bills, s) && ConsistentRun(bills, steps)
    ensures Backed(bills, Execute(s, steps))
    decreases steps
  {
    hide Next, Backed, Consistent;
    if steps != [] {
      BackedNext(bills, s, steps[0]);
      BackedForever(bills, Next(s, steps[0]), steps[1..]);
    }
  }

  // ---- Conservation ----

  function AmountAt(ledger: Ledger): string -> int { (key: string) => if key in ledger then ledger[key].amount else 0 }

  ghost function TotalDebited(ledger: Ledger): int { Sum(ledger.Keys, AmountAt(ledger)) }

  ghost function SettledKeys(rows: Rows): set<string> {
    set id | id in Successes(rows) :: FeeKey(rows[id].billing.requestID)
  }

  /** Debited, but no row says so: the reply was lost, the row was overwritten by a stale retry, or is yet to be written. */
  ghost function Unsettled(s: System): int { Sum(s.ledger.Keys - SettledKeys(s.rows), AmountAt(s.ledger)) }

  lemma FeeKeyInjective(a: string, b: string)
    requires FeeKey(a) == FeeKey(b)
    ensures a == b
  {
    assert a == FeeKey(a)[4..] && b == FeeKey(b)[4..];
  }

  /** A row agrees with the ledger: once its key is debited, it was for this fee and from this user; SUCCESS rows are. */
  predicate TrueToLedger(ledger: Ledger, fee: Fee) {
    && Paid(ledger, fee)
    && (FeeKey(fee.billing.requestID) in ledger ==>
          ledger[FeeKey(fee.billing.requestID)] == Debit(fee.billing.userID, fee.billing.feeAmount))
  }

  ghost predicate RowsTrue(s: System) { forall id :: id in s.rows ==> TrueToLedger(s.ledger, s.rows[id]) }

  lemma BackedRowIsTrue(bills: Billings, s: System, id: int)
    requires Backed(bills, s) && id in s.rows
    ensures TrueToLedger(s.ledger, s.rows[id])
  {
    hide FeeKey;
    var r := s.rows[id].billing.requestID;
    assert FeeBacked(bills, s.ledger, s.rows[id]);
    if FeeKey(r) in s.ledger {
      var r' :| FeeKey(r) == FeeKey(r') && s.ledger[FeeKey(r)] == bills(r');
      FeeKeyInjective(r, r');
    }
  }

  function KeyAt(rows: Rows): int -> string {
    (id: int) => if id in rows then FeeKey(rows[id].billing.requestID) else ""
  }

  lemma RevenueIsDebited(bills: Billings, s: System)
    requires Backed(bills, s)
    ensures SettledKeys(s.rows) <= s.ledger.Keys
    ensures Revenue(s.rows) == Sum(SettledKeys(s.rows), AmountAt(s.ledger))
  {
    hide Sum, FeeKey, Consistent, Named, FeeBacked;
    var keyOf := KeyAt(s.rows);
    forall id | id in Successes(s.rows)
      ensures keyOf(id) in s.ledger && keyOf(id) in SettledKeys(s.rows)
      ensures FeeAt(s.rows)(id) == AmountAt(s.ledger)(keyOf(id))
    {
      BackedRowIsTrue(bills, s, id);
      assert FeeKey(s.rows[id].billing.requestID) in SettledKeys(s.rows);
    }
    forall i, j | i in Successes(s.rows) && j in Successes(s.rows) && keyOf(i) == keyOf(j) ensures i == j {
      assert keyOf(i) == FeeKey(s.rows[i].billing.requestID) && keyOf(j) == FeeKey(s.rows[j].billing.requestID);
      FeeKeyInjective(s.rows[i].billing.requestID, s.rows[j].billing.requestID);
    }
    forall key | key in SettledKeys(s.rows) ensures exists id :: id in Successes(s.rows) && keyOf(id) == key {
      var id :| id in Successes(s.rows) && FeeKey(s.rows[id].billing.requestID) == key;
      assert keyOf(id) == key;
    }
    SumRelabelled(Successes(s.rows), keyOf, SettledKeys(s.rows), FeeAt(s.rows), AmountAt(s.ledger));
  }

  /** The money debited is the reported revenue plus what is unsettled, and so no less than the revenue if no debit is
      negative. */
  ghost predicate Balanced(s: System) {
    && TotalDebited(s.ledger) == Revenue(s.rows) + Unsettled(s)
    && ((forall key :: key in s.ledger ==> s.ledger[key].amount >= 0) ==> Revenue(s.rows) <= TotalDebited(s.ledger))
  }

  lemma BackedIsConserved(bills: Billings, s: System)
    requires Backed(bills, s)
    ensures RowsTrue(s) && Balanced(s)
  {
    hide Backed, Sum, FeeKey, AmountAt, TrueToLedger;
    forall id | id in s.rows ensures TrueToLedger(s.ledger, s.rows[id]) { BackedRowIsTrue(bills, s, id); }
    RevenueIsDebited(bills, s);
    Conserved(s);
  }

  /** Every earlier debit is there later, as it was. */
  ghost predicate LedgerKept(ledger: Ledger, later: Ledger) {
    forall key :: key in ledger ==> key in later && later[key] == ledger[key]
  }

  lemma EarlierDebitsStay(s: System, steps: seq<Step>, n: nat)
    requires n <= |steps|
    ensures LedgerKept(Execute(s, steps[..n]).ledger, Execute(s, steps).ledger)
  {
    hide Execute;
    var earlier := Execute(s, steps[..n]);
    ExecuteAppend(s, steps[..n], steps[n..]);
    assert steps[..n] + steps[n..] == steps;
    forall key | key in earlier.ledger
      ensures key in Execute(s, steps).ledger && Execute(s, steps).ledger[key] == earlier.ledger[key]
    {
      DebitsAreFinal(earlier, steps[n..], key);
    }
  }

  /** Conservation: in every interleaving in which each request id always stands for the same debit, every row whose key was
      debited was so for exactly its fee from exactly its user, every SUCCESS row was, no debit made by step n was changed or
      undone since, and the money debited is the reported revenue plus what is unsettled; so the revenue never exceeds the
      money debited as long as no debit is negative. */
  lemma MoneyIsConserved(bills: Billings, start: Instant, steps: seq<Step>, n: nat)
    requires ConsistentRun(bills, steps) && n <= |steps|
    ensures RowsTrue(Execute(Initial(start), steps)) && Balanced(Execute(Initial(start), steps))
    ensures LedgerKept(Execute(Initial(start), steps[..n]).ledger, Execute(Initial(start), steps).ledger)
  {
    hide *;
    StartBacked(bills, start);
    BackedForever(bills, Initial(start), steps);
    EarlierDebitsStay(Initial(start), steps, n);
    BackedIsConserved(bills, Execute(Initial(start), steps));
  }

  lemma StartBacked(bills: Billings, start: Instant)
    ensures Backed(bills, Initial(start))
  {
  }

  lemma Conserved(s: System)
    requires SettledKeys(s.rows) <= s.ledger.Keys
    requires Revenue(s.rows) == Sum(SettledKeys(s.rows), AmountAt(s.ledger))
    ensures Balanced(s)
  {
    hide Sum, SettledKeys;
    var settled, all := SettledKeys(s.rows), s.ledger.Keys;
    SumUnion(settled, all - settled, AmountAt(s.ledger));
    assert settled + (all - settled) == all;
    if forall key :: key in s.ledger ==> s.ledger[key].amount >= 0 {
      SumAtLeastZero(all - settled, AmountAt(s.ledger));
    }
  }

  /** Whatever follows, a key once debited keeps its one debit. */
  lemma {:induction false} DebitsAreFinal(s: System, steps: seq<Step>, key: string)
    requires key in s.ledger
    ensures key in Execute(s, steps).ledger && Execute(s, steps).ledger[key] == s.ledger[key]
    decreases steps
  {
    if steps != [] {
      LedgerStep(s, steps[0], key);
      hide Next;
      DebitsAreFinal(Next(s, steps[0]), steps[1..], key);
    }
  }

  lemma LedgerStep(s: System, step: Step, key: string)
    requires key in s.ledger
    ensures key in Next(s, step).ledger && Next(s, step).ledger[key] == s.ledger[key]
  {
    hide Charged, Retried, Copies, Insert, UpdateRetryState;
  }

  /** So, with ids that stand for one debit each, every debit that a row speaks of is from that row's user and is the one
      whole number nearest to the row's rate times its amount. */
  lemma DebitsAreNearestFees(bills: Billings, start: Instant, steps: seq<Step>, id: int)
    requires ConsistentRun(bills, steps) && ReckonedRun(steps) && id in Execute(Initial(start), steps).rows
    ensures var s := Execute(Initial(start), steps);
            var billing := s.rows[id].billing;
            "fee-" + billing.requestID in s.ledger ==>
              && s.ledger["fee-" + billing.requestID].user == billing.userID
              && IsFee(s.ledger["fee-" + billing.requestID].amount, billing.transactionAmount, billing.feeRate)
  {
    MoneyIsConserved(bills, start, steps, 0);
    RowsStayReckoned(Initial(start), steps);
    hide Execute, IsFee, Balanced, LedgerKept;
    var s := Execute(Initial(start), steps);
    assert TrueToLedger(s.ledger, s.rows[id]) && FeeKey(s.rows[id].billing.requestID) == "fee-" + s.rows[id].billing.requestID;
  }

  // ---- Reused request ids ----

  /** The first record is lost after the debit, and the id is charged again. */
  function ReuseSteps(a: Billing, b: Billing, reference: string): seq<Step> {
    [BeginCharge(1, a, Settle(reference)), EndCharge(1, 1, false)] + [BeginCharge(1, b, Settle(reference)), EndCharge(1, 1, true)]
  }

  /** What then stands in ledger and table, for any two billings that share a request id: the first is debited, the second
      reported; row and ledger agree if and only if both name the same debit. */
  lemma ReusedIdReportsSecond(a: Billing, b: Billing, reference: string, start: Instant)
    requires a.requestID == b.requestID
    ensures var s := Execute(Initial(start), ReuseSteps(a, b, reference));
            && s.ledger == map["fee-" + a.requestID := Debit(a.userID, a.feeAmount)]
            && s.rows == map[1 := Charged(b, Settle(reference), start)]
            && TotalDebited(s.ledger) == a.feeAmount && Revenue(s.rows) == b.feeAmount
            && (RowsTrue(s) <==> a.userID == b.userID && a.feeAmount == b.feeAmount)
  {
    var s2 := LostRecord(a, reference, start);
    var s4 := SecondRecord(s2, a, b, reference);
    ExecuteAppend(Initial(start), [BeginCharge(1, a, Settle(reference)), EndCharge(1, 1, false)],
                                  [BeginCharge(1, b, Settle(reference)), EndCharge(1, 1, true)]);
    assert FeeKey(a.requestID) == "fee-" + a.requestID;
    hide Execute, FeeKey;
    assert RowsTrue(s4) <==> TrueToLedger(s4.ledger, s4.rows[1]);
    assert Successes(s4.rows) == {} + {1} && s4.ledger.Keys == {} + {FeeKey(a.requestID)};
    SumInsert({}, 1, FeeAt(s4.rows));
    SumInsert({}, FeeKey(a.requestID), AmountAt(s4.ledger));
  }

  lemma LostRecord(a: Billing, reference: string, start: Instant) returns (s: System)
    ensures s == Execute(Initial(start), [BeginCharge(1, a, Settle(reference)), EndCharge(1, 1, false)])
    ensures s.ledger == map[FeeKey(a.requestID) := DebitOf(a)] && s.rows == map[] && s.jobs == map[] && s.clock == start
  {
    ExecuteTwo(Initial(start), BeginCharge(1, a, Settle(reference)), EndCharge(1, 1, false));
    s := Next(Next(Initial(start), BeginCharge(1, a, Settle(reference))), EndCharge(1, 1, false));
  }

  lemma SecondRecord(s: System, a: Billing, b: Billing, reference: string) returns (s': System)
    requires s.ledger == map[FeeKey(a.requestID) := DebitOf(a)] && s.rows == map[] && s.jobs == map[]
    requires a.requestID == b.requestID
    ensures s' == Execute(s, [BeginCharge(1, b, Settle(reference)), EndCharge(1, 1, true)])
    ensures s'.ledger == s.ledger && s'.rows == map[1 := Charged(b, Settle(reference), s.clock)]
  {
    ExecuteTwo(s, BeginCharge(1, b, Settle(reference)), EndCharge(1, 1, true));
    s' := Next(Next(s, BeginCharge(1, b, Settle(reference))), EndCharge(1, 1, true));
  }

  // ---- Exactly which charges keep table and ledger in agreement ----

  ghost predicate DrawnFrom(charges: iset<Billing>, steps: seq<Step>) {
    forall i :: 0 <= i < |steps| && steps[i].BeginCharge? ==> steps[i].billing in charges
  }

  ghost predicate OneDebitPerId(charges: iset<Billing>) {
    forall a, b :: a in charges && b in charges && a.requestID == b.requestID ==> a.userID == b.userID && a.feeAmount == b.feeAmount
  }

  /** The debit an id stands for among the charges. */
  ghost function BillOf(charges: iset<Billing>, requestID: string): (debit: Debit)
    ensures OneDebitPerId(charges) ==> forall a :: a in charges && a.requestID == requestID ==> debit == DebitOf(a)
  {
    if a :| a in charges && a.requestID == requestID then DebitOf(a) else Debit("", 0)
  }

  /** For every set of charges: all runs that make only these keep every row true to the ledger if and only if no two of
      them give one request id different users or fees. */
  lemma RowsTrueIff(charges: iset<Billing>)
    ensures (forall start, steps :: DrawnFrom(charges, steps) ==> RowsTrue(Execute(Initial(start), steps)))
       <==> OneDebitPerId(charges)
  {
    hide Execute, RowsTrue;
    if OneDebitPerId(charges) {
      var bills: Billings := (requestID: string) => BillOf(charges, requestID);
      forall start, steps | DrawnFrom(charges, steps) ensures RowsTrue(Execute(Initial(start), steps)) {
        MoneyIsConserved(bills, start, steps, 0);
      }
    } else {
      var a, b :| a in charges && b in charges && a.requestID == b.requestID && !(a.userID == b.userID && a.feeAmount == b.feeAmount);
      ReusedIdReportsSecond(a, b, "ref", 0);
      assert DrawnFrom(charges, ReuseSteps(a, b, "ref"));
    }
  }
}
