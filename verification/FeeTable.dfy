/** The fee table: rows by id, with the queries the service uses. */
module FeeTable {
  import opened Clock
  import opened Wrappers
  import opened Fees
  import opened Sums

  type Rows = map<int, Fee>

  predicate Taken(rows: Rows, requestID: string) {
    exists id :: id in rows && rows[id].billing.requestID == requestID
  }

  /** `request_id` is a unique key; `id` is the one the database hands out. */
  function Insert(rows: Rows, id: int, fee: Fee): Rows {
    if id in rows || Taken(rows, fee.billing.requestID) then rows else rows[id := fee]
  }

  /** Writes the five retry columns of the row, whatever has happened to it meanwhile. */
  function UpdateRetryState(rows: Rows, id: int, fee: Fee): Rows {
    if id !in rows then rows
    else rows[id := rows[id].(status := fee.status, retryCount := fee.retryCount, nextRetryAt := fee.nextRetryAt,
                              smartBankRef := fee.smartBankRef, errorMessage := fee.errorMessage)]
  }

  /** Waiting for a retry at or before the given time. */
  predicate WaitingBy(fee: Fee, t: Instant) {
    fee.status.Pending? && fee.retryCount < fee.maxRetries && fee.nextRetryAt.Some? && fee.nextRetryAt.value <= t
  }

  /** A possible answer of the due-retries query: distinct due rows, earliest first, ties in any order; at most `limit`
      of them, and none left out that is earlier than one listed, or while there is room. */
  ghost predicate IsDueList(rows: Rows, now: Instant, limit: nat, due: seq<int>) {
    && |due| <= limit
    && (forall i :: 0 <= i < |due| ==> due[i] in rows && WaitingBy(rows[due[i]], now))
    && (forall i, j :: 0 <= i < j < |due| ==>
          due[i] != due[j] && rows[due[i]].nextRetryAt.value <= rows[due[j]].nextRetryAt.value)
    && (forall id, i :: id in rows && WaitingBy(rows[id], now) && id !in due && 0 <= i < |due| ==>
          rows[due[i]].nextRetryAt.value <= rows[id].nextRetryAt.value)
    && (|due| < limit ==> forall id :: id in rows && WaitingBy(rows[id], now) ==> id in due)
  }

  ghost function DueSet(rows: Rows, now: Instant): set<int> {
    set id | id in rows && WaitingBy(rows[id], now)
  }

  lemma {:induction false} EarliestOf(rows: Rows, now: Instant, left: set<int>) returns (first: int)
    requires left != {} && left <= DueSet(rows, now)
    ensures first in left && forall id :: id in left ==> rows[first].nextRetryAt.value <= rows[id].nextRetryAt.value
    decreases left
  {
    first := Pick(left);
    var rest := left - {first};
    assert left == rest + {first};
    if rest != {} {
      var other := EarliestOf(rows, now, rest);
      if rows[other].nextRetryAt.value < rows[first].nextRetryAt.value { first := other; }
    }
  }

  /** The query always has an answer. */
  lemma {:induction false} DueListExists(rows: Rows, now: Instant, limit: nat) returns (due: seq<int>)
    ensures IsDueList(rows, now, limit, due)
  {
    due := [];
    var left := DueSet(rows, now);
    while |due| < limit && left != {}
      invariant |due| <= limit && left <= DueSet(rows, now)
      invariant forall id :: id in DueSet(rows, now) <==> id in due || id in left
      invariant forall i :: 0 <= i < |due| ==> due[i] !in left && due[i] in rows && WaitingBy(rows[due[i]], now)
      invariant forall id :: id in left ==> id in rows && WaitingBy(rows[id], now)
      invariant forall i, j :: 0 <= i < j < |due| ==>
        due[i] != due[j] && rows[due[i]].nextRetryAt.value <= rows[due[j]].nextRetryAt.value
      invariant forall id, i :: id in left && 0 <= i < |due| ==>
        rows[due[i]].nextRetryAt.value <= rows[id].nextRetryAt.value
      decreases left
    {
      var first := EarliestOf(rows, now, left);
      due, left := due + [first], left - {first};
    }
  }

  ghost function Successes(rows: Rows): set<int> { set id | id in rows && rows[id].status.Success? }

  function FeeAt(rows: Rows): int -> int { (id: int) => if id in rows then rows[id].billing.feeAmount else 0 }

  /** The revenue the summary reports. */
  ghost function Revenue(rows: Rows): int { Sum(Successes(rows), FeeAt(rows)) }
}
