/** Fee collection as an interleaving: charges, the retry worker and manual retries, each a few separate steps over the
    table and the bank, with no row locks in between. */
module FeeSystem {
  import opened Clock
  import opened Wrappers
  import opened Fees
  import opened FeeTable

  /** A charge or a retry under way. */
  datatype Job =
    | Opening(fee: Fee, at: Instant)    // a charge that has heard from the bank, about to insert
    | Copied(id: int, fee: Fee)         // a retry that has read its row
    | Settling(id: int, fee: Fee)       // a retry that has heard from the bank, about to write back

  datatype Due = Due(id: int, fee: Fee)

  /** `queue` is what the worker has listed and not yet taken. `attempts` and `deferredAt` are history: worker attempts
      per row, and when a row inserted as pending had been deferred. */
  datatype System = System(
    clock: Instant, rows: Rows, ledger: Ledger, jobs: map<nat, Job>, queue: seq<Due>,
    attempts: map<int, nat>, deferredAt: map<int, Instant>)

  const WORKER: nat := 0
  const BATCH: nat := 20

  datatype Step =
    | Tick(time: Instant)
    | BeginCharge(job: nat, billing: Billing, behaviour: BankBehaviour)
    | EndCharge(job: nat, id: int, dbOk: bool)
    | BeginManualRetry(job: nat, id: int)
    | ListDue(due: seq<int>)
    | TakeNext
    | CallBank(job: nat, behaviour: BankBehaviour)
    | EndRetry(job: nat, dbOk: bool)

  function Initial(start: Instant): System { System(start, map[], map[], map[], [], map[], map[]) }

  function Attempts(s: System, id: int): nat { if id in s.attempts then s.attempts[id] else 0 }

  function Copies(rows: Rows, due: seq<int>): (copies: seq<Due>)
    requires forall i :: 0 <= i < |due| ==> due[i] in rows
    ensures |copies| == |due|
    ensures forall i :: 0 <= i < |due| ==> copies[i] == Due(due[i], rows[due[i]])
  {
    seq(|due|, i requires 0 <= i < |due| => Due(due[i], rows[due[i]]))
  }

  ghost predicate CanList(s: System, due: seq<int>) {
    s.queue == [] && WORKER !in s.jobs && IsDueList(s.rows, s.clock, BATCH, due)
  }

  ghost function Next(s: System, step: Step): System {
    match step
    case Tick(t) => if t >= s.clock then s.(clock := t) else s
    case BeginCharge(job, billing, behaviour) =>
      if job in s.jobs || job == WORKER then s
      else s.(ledger := BankCall(s.ledger, FeeKey(billing.requestID), DebitOf(billing), behaviour),
              jobs := s.jobs[job := Opening(Charged(billing, behaviour, s.clock), s.clock)])
    case EndCharge(job, id, dbOk) =>
      if job in s.jobs && s.jobs[job].Opening? then
        var rows := if dbOk then Insert(s.rows, id, s.jobs[job].fee) else s.rows;
        s.(jobs := s.jobs - {job}, rows := rows,
           deferredAt := if id in rows && id !in s.rows then s.deferredAt[id := s.jobs[job].at] else s.deferredAt)
      else s
    case BeginManualRetry(job, id) =>
      if job in s.jobs || job == WORKER || id !in s.rows then s
      else s.(jobs := s.jobs[job := Copied(id, s.rows[id])])
    case ListDue(due) => if CanList(s, due) then s.(queue := Copies(s.rows, due)) else s
    case TakeNext =>
      if s.queue != [] && WORKER !in s.jobs
      then s.(queue := s.queue[1..], jobs := s.jobs[WORKER := Copied(s.queue[0].id, s.queue[0].fee)])
      else s
    case CallBank(job, behaviour) =>
      if job in s.jobs && s.jobs[job].Copied? then
        var copy := s.jobs[job].fee;
        s.(ledger := BankCall(s.ledger, FeeKey(copy.billing.requestID), DebitOf(copy.billing), behaviour),
           jobs := s.jobs[job := Settling(s.jobs[job].id, Retried(copy, behaviour, s.clock))])
      else s
    case EndRetry(job, dbOk) =>
      if job in s.jobs && s.jobs[job].Settling? then
        var id := s.jobs[job].id;
        s.(jobs := s.jobs - {job},
           rows := if dbOk then UpdateRetryState(s.rows, id, s.jobs[job].fee) else s.rows,
           attempts := if job == WORKER then s.attempts[id := Attempts(s, id) + 1] else s.attempts)
      else s
  }

  ghost function Execute(s: System, steps: seq<Step>): System
    decreases steps
  {
    if steps == [] then s else Execute(Next(s, steps[0]), steps[1..])
  }

  lemma {:induction false} ExecuteAppend(s: System, first: seq<Step>, rest: seq<Step>)
    ensures Execute(s, first + rest) == Execute(Execute(s, first), rest)
    decreases first
  {
    hide Next;
    if first == [] {
      assert first + rest == rest;
    } else {
      assert (first + rest)[1..] == first[1..] + rest;
      ExecuteAppend(Next(s, first[0]), first[1..], rest);
    }
  }

  lemma ExecuteTwo(s: System, first: Step, second: Step)
    ensures Execute(s, [first, second]) == Next(Next(s, first), second)
  {
    hide Next;
    var s1 := Next(s, first);
    assert [first, second][1..] == [second] && [second][1..] == [];
    assert Execute(s1, [second]) == Execute(Next(s1, second), []);
  }
}
