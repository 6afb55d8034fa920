/** Gateway fees: rounding, the bank, and what a charge or a retry makes of a fee record. */
module Fees {
  import opened Clock
  import opened Wrappers

  // ---- Rounding ----

  function CalculateFee(amount: int, rate: real): int { (amount as real * rate + 0.5).Floor }

  const DEFAULT_RATE: real := 0.005

  function Ceiling(x: real): int { -((-x).Floor) }

  /** The fee is the nearest integer to the exact fee, ties upward; no other integer is. */
  lemma FeeIsNearestHalfUp(amount: int, rate: real, n: int)
    ensures n == CalculateFee(amount, rate) <==> n as real - 0.5 <= amount as real * rate < n as real + 0.5
  {
  }

  lemma ProductMonotone(a: real, b: real, rate: real)
    requires a <= b && rate >= 0.0
    ensures a * rate <= b * rate
  {
    assert (b - a) * rate >= 0.0;
  }

  lemma FeeIsMonotone(amount: int, larger: int, rate: real)
    requires amount <= larger && rate >= 0.0
    ensures CalculateFee(amount, rate) <= CalculateFee(larger, rate)
  {
    ProductMonotone(amount as real, larger as real, rate);
  }

  lemma DefaultFee(amount: int)
    ensures CalculateFee(amount, DEFAULT_RATE) == (amount + 100) / 200
  {
    var q := (amount + 100) / 200;
    FeeIsNearestHalfUp(amount, DEFAULT_RATE, q);
    assert 200 * q <= amount + 100 < 200 * q + 200;
    assert (200 * q - 100) as real * 0.005 == q as real - 0.5;
  }

  /** The fee is the exact fee rounded up, as the user documentation has it, exactly when the exact fee is a whole number
      or its fraction is at least one half. */
  lemma RoundsUpIff(amount: int, rate: real)
    ensures var exact := amount as real * rate;
            CalculateFee(amount, rate) == Ceiling(exact)
            <==> exact == exact.Floor as real || exact - exact.Floor as real >= 0.5
  {
    var exact := amount as real * rate;
    var n := exact.Floor;
    assert Ceiling(exact) == if exact == n as real then n else n + 1;
  }

  function TotalFees(amounts: seq<int>, rate: real): int {
    if amounts == [] then 0 else CalculateFee(amounts[0], rate) + TotalFees(amounts[1..], rate)
  }

  function Total(amounts: seq<int>): int {
    if amounts == [] then 0 else amounts[0] + Total(amounts[1..])
  }

  /** Rounding errors do not add up beyond half a unit a fee. */
  lemma {:induction false} TotalErrorIsBounded(amounts: seq<int>, rate: real)
    ensures -(|amounts| as real) <= 2.0 * (TotalFees(amounts, rate) as real - Total(amounts) as real * rate) <= |amounts| as real
  {
    if amounts != [] {
      TotalErrorIsBounded(amounts[1..], rate);
      FeeIsNearestHalfUp(amounts[0], rate, CalculateFee(amounts[0], rate));
      Distributes(amounts[0] as real, Total(amounts[1..]) as real, rate);
    }
  }

  lemma Distributes(a: real, b: real, rate: real)
    ensures (a + b) * rate == a * rate + b * rate
  {
  }

  // ---- The bank ----

  datatype Debit = Debit(user: string, amount: int)

  /** What the bank does with one call, and what the caller hears. A reply can be lost after the debit. */
  datatype BankBehaviour = Settle(reference: string) | Decline(error: string) | LoseReply(error: string)

  type Ledger = map<string, Debit>

  function FeeKey(requestID: string): string { "fee-" + requestID }

  /** The bank debits a key once, with the first call that reaches it. */
  function BankCall(ledger: Ledger, key: string, debit: Debit, behaviour: BankBehaviour): Ledger {
    if behaviour.Decline? || key in ledger then ledger else ledger[key := debit]
  }

  function ReferenceOr(reference: string, requestID: string): string {
    if reference == "" then "smartbank-fee-" + requestID else reference
  }

  // ---- Fee records ----

  datatype Status = Success | Pending | Failed

  /** The columns fixed when the fee is charged. */
  datatype Billing = Billing(
    requestID: string, userID: string, sourceApp: string, transactionAmount: int, feeAmount: int, feeRate: real)

  datatype Fee = Fee(
    billing: Billing, status: Status, retryCount: int, maxRetries: int,
    nextRetryAt: Option<Instant>, smartBankRef: Option<string>, errorMessage: Option<string>)

  const MAX_RETRIES := 5

  function DebitOf(billing: Billing): Debit { Debit(billing.userID, billing.feeAmount) }

  function SourceAppOrDefault(sourceApp: string, fallback: string): string {
    if sourceApp != "" then sourceApp else if fallback != "" then fallback else "unknown"
  }

  function BillingFor(requestID: string, userID: string, sourceApp: string, principalApp: string, amount: int, rate: real): Billing {
    Billing(requestID, userID, SourceAppOrDefault(sourceApp, principalApp), amount, CalculateFee(amount, rate), rate)
  }

  function RetryDelay(retryCount: int): Duration {
    if retryCount <= 0 then 30 * SECOND
    else if retryCount == 1 then 120 * SECOND
    else if retryCount == 2 then 480 * SECOND
    else if retryCount == 3 then 1920 * SECOND
    else 7200 * SECOND
  }

  /** Thirty seconds at first, four times as long after each failure, and two hours from the fifth on. */
  lemma RetryDelayQuadruples(k: int)
    ensures RetryDelay(0) == 30 * SECOND
    ensures k <= 0 ==> RetryDelay(k) == RetryDelay(0)
    ensures 0 <= k < 3 ==> RetryDelay(k + 1) == 4 * RetryDelay(k)
    ensures k >= 4 ==> RetryDelay(k) == 2 * HOUR
    ensures RetryDelay(k) <= RetryDelay(k + 1)
  {
  }

  /** The record a charge inserts. */
  function Charged(billing: Billing, behaviour: BankBehaviour, now: Instant): Fee {
    if behaviour.Settle? then
      Fee(billing, Success, 0, MAX_RETRIES, None, Some(ReferenceOr(behaviour.reference, billing.requestID)), None)
    else
      Fee(billing, Pending, 0, MAX_RETRIES, Some(now + RetryDelay(0)), None, Some(behaviour.error))
  }

  /** The record a retry writes back, from the copy it read. */
  function Retried(copy: Fee, behaviour: BankBehaviour, now: Instant): Fee {
    if behaviour.Settle? then
      copy.(status := Success, nextRetryAt := None,
            smartBankRef := Some(ReferenceOr(behaviour.reference, copy.billing.requestID)), errorMessage := None)
    else
      var count := copy.retryCount + 1;
      var counted := copy.(retryCount := count, errorMessage := Some(behaviour.error));
      if count >= copy.maxRetries then counted.(status := Failed, nextRetryAt := None)
      else counted.(status := Pending, nextRetryAt := Some(now + RetryDelay(count)))
  }

  /** The fee is n: the whole number nearest to the exact fee, halves upward. */
  predicate IsFee(n: int, amount: int, rate: real) { n as real - 0.5 <= amount as real * rate < n as real + 0.5 }

  /** What a charge of an amount records: the nearest fee, the one asked to pay, and the amount and rate it was reckoned
      from, under an application name that is never empty. */
  lemma BillingNamesCharge(requestID: string, userID: string, sourceApp: string, principalApp: string, amount: int, rate: real)
    ensures var billing := BillingFor(requestID, userID, sourceApp, principalApp, amount, rate);
            && IsFee(billing.feeAmount, amount, rate) && DebitOf(billing) == Debit(userID, billing.feeAmount)
            && billing.requestID == requestID && billing.userID == userID
            && billing.transactionAmount == amount && billing.feeRate == rate
            && billing.sourceApp != ""
            && (sourceApp != "" ==> billing.sourceApp == sourceApp)
            && (sourceApp == "" && principalApp != "" ==> billing.sourceApp == principalApp)
  {
    FeeIsNearestHalfUp(amount, rate, CalculateFee(amount, rate));
  }

  /** A retry that fails at time t waits exactly the listed delay, unless it was the last. */
  lemma FailedRetryWaits(copy: Fee, behaviour: BankBehaviour, t: Instant)
    requires !behaviour.Settle? && copy.retryCount >= 0
    ensures var fee := Retried(copy, behaviour, t);
            var delays := [30, 120, 480, 1920, 7200];
            && fee.billing == copy.billing && fee.maxRetries == copy.maxRetries && fee.smartBankRef == copy.smartBankRef
            && fee.retryCount == copy.retryCount + 1 && fee.errorMessage == Some(behaviour.error)
            && (fee.retryCount >= fee.maxRetries ==> fee.status == Failed && fee.nextRetryAt == None)
            && (fee.retryCount < fee.maxRetries ==>
                  && fee.status == Pending
                  && fee.nextRetryAt == Some(t + delays[if fee.retryCount > 4 then 4 else fee.retryCount] * 1_000_000_000))
  {
  }

  /** A retry that is settled takes the bank's reference, or makes one from the request id if the bank gave none. */
  lemma SettledRetryRefers(copy: Fee, reference: string, t: Instant)
    ensures var fee := Retried(copy, Settle(reference), t);
            && fee.billing == copy.billing && fee.maxRetries == copy.maxRetries && fee.retryCount == copy.retryCount
            && fee.status == Success && fee.nextRetryAt == None && fee.errorMessage == None
            && (reference != "" ==> fee.smartBankRef == Some(reference))
            && (reference == "" ==> fee.smartBankRef == Some("smartbank-fee-" + copy.billing.requestID))
  {
  }

  /** A deferred charge waits thirty seconds with nothing counted; a settled one waits for nothing. */
  lemma ChargedStartsRight(billing: Billing, behaviour: BankBehaviour, t: Instant)
    ensures var fee := Charged(billing, behaviour, t);
            && fee.billing == billing && fee.retryCount == 0 && fee.maxRetries == 5
            && if behaviour.Settle? then
                 && fee.status == Success && fee.nextRetryAt == None && fee.errorMessage == None
                 && fee.smartBankRef == Some(if behaviour.reference != "" then behaviour.reference
                                             else "smartbank-fee-" + billing.requestID)
               else
                 && fee.status == Pending && fee.nextRetryAt == Some(t + 30_000_000_000)
                 && fee.smartBankRef == None && fee.errorMessage == Some(behaviour.error)
  {
  }

  /** The shape every stored fee keeps. */
  predicate WellShaped(fee: Fee) {
    match fee.status
    case Success => fee.smartBankRef.Some? && fee.nextRetryAt.None? && fee.errorMessage.None?
    case Pending => fee.nextRetryAt.Some? && fee.errorMessage.Some? && fee.retryCount < fee.maxRetries
    case Failed => fee.nextRetryAt.None? && fee.errorMessage.Some? && fee.retryCount >= fee.maxRetries
  }
}
