/** When a SUCCESS or FAILED fee stays what it is, under any interleaving, failed writes and manual retries of other fees. */
module FeeFinality {
  import opened Clock
  import opened Wrappers
  import opened Fees
  import opened FeeTable
  import opened FeeSystem

  /** No new manual retry of this fee. */
  ghost predicate NoManualRetry(id: int, steps: seq<Step>) {
    forall i :: 0 <= i < |steps| && steps[i].BeginManualRetry? ==> steps[i].id != id
  }

  /** A retry of the fee is under way on a copy read earlier. */
  predicate Holds(job: Job, id: int) { !job.Opening? && job.id == id }

  ghost predicate Unheld(s: System, id: int) {
    && (forall j :: j in s.jobs ==> !Holds(s.jobs[j], id))
    && (forall i :: 0 <= i < |s.queue| ==> s.queue[i].id != id)
  }

  /** Whoever holds a copy has already heard from the bank that it is settled. */
  ghost predicate OnlySettledCopies(s: System, id: int) {
    && (forall j :: j in s.jobs && Holds(s.jobs[j], id) ==> s.jobs[j].Settling? && s.jobs[j].fee.status.Success?)
    && (forall i :: 0 <= i < |s.queue| ==> s.queue[i].id != id)
  }

  predicate IsSuccess(s: System, id: int) { id in s.rows && s.rows[id].status.Success? }

  // ---- What nobody holds does not change ----

  lemma UnheldStep(s: System, step: Step, id: int)
    requires id in s.rows && !s.rows[id].status.Pending? && Unheld(s, id)
    requires step.BeginManualRetry? ==> step.id != id
    ensures var s' := Next(s, step);
            id in s'.rows && s'.rows[id] == s.rows[id] && Unheld(s', id) && Attempts(s', id) == Attempts(s, id)
  {
    hide BankCall, Charged, Retried, Taken;
    assert step.ListDue? && CanList(s, step.due) ==> forall i :: 0 <= i < |step.due| ==> WaitingBy(s.rows[step.due[i]], s.clock);
    hide CanList, IsDueList;
  }

  /** A SUCCESS or FAILED row nobody holds a copy of is neither attempted by the worker nor changed by anything that
      follows, as long as it is not retried by hand. */
  lemma {:induction false} TerminalIsFinal(s: System, steps: seq<Step>, id: int)
    requires id in s.rows && !s.rows[id].status.Pending? && Unheld(s, id) && NoManualRetry(id, steps)
    ensures id in Execute(s, steps).rows && Execute(s, steps).rows[id] == s.rows[id]
    ensures Attempts(Execute(s, steps), id) == Attempts(s, id)
    decreases steps
  {
    hide Next, Unheld, Attempts;
    if steps != [] {
      UnheldStep(s, steps[0], id);
      TerminalIsFinal(Next(s, steps[0]), steps[1..], id);
    }
  }

  // ---- SUCCESS stays ----

  lemma SettledStep(s: System, step: Step, id: int)
    requires IsSuccess(s, id) && OnlySettledCopies(s, id)
    requires step.BeginManualRetry? ==> step.id != id
    ensures IsSuccess(Next(s, step), id) && OnlySettledCopies(Next(s, step), id)
  {
    hide BankCall, Charged, Retried, Taken;
    assert step.ListDue? && CanList(s, step.due) ==> forall i :: 0 <= i < |step.due| ==> WaitingBy(s.rows[step.due[i]], s.clock);
    hide CanList, IsDueList;
  }

  lemma {:induction false} SuccessStays(s: System, steps: seq<Step>, id: int)
    requires IsSuccess(s, id) && OnlySettledCopies(s, id) && NoManualRetry(id, steps)
    ensures IsSuccess(Execute(s, steps), id)
    decreases steps
  {
    hide Next, OnlySettledCopies, IsSuccess;
    if steps != [] {
      SettledStep(s, steps[0], id);
      SuccessStays(Next(s, steps[0]), steps[1..], id);
    }
  }

  // ---- SUCCESS undone ----

  const NO: BankBehaviour := Decline("no")

  lemma Single(s: System, step: Step)
    ensures Execute(s, [step]) == Next(s, step)
  {
    hide Next;
    assert [step][1..] == [];
    assert Execute(s, [step]) == Execute(Next(s, step), []);
  }

  /** A copy whose holder hears a failure, or has heard one, takes the row out of SUCCESS. */
  lemma JobUndoes(s: System, id: int, j: nat) returns (steps: seq<Step>)
    requires IsSuccess(s, id) && j in s.jobs && Holds(s.jobs[j], id)
    requires !(s.jobs[j].Settling? && s.jobs[j].fee.status.Success?)
    ensures NoManualRetry(id, steps) && id in Execute(s, steps).rows && !IsSuccess(Execute(s, steps), id)
  {
    if s.jobs[j].Copied? {
      steps := [CallBank(j, NO), EndRetry(j, true)];
      ExecuteTwo(s, steps[0], steps[1]);
    } else {
      steps := [EndRetry(j, true)];
      Single(s, steps[0]);
    }
  }

  /** The worker can finish what it is at without any write reaching the table. */
  lemma WorkerFinishes(s: System) returns (s': System, steps: seq<Step>)
    ensures s' == Execute(s, steps) && (forall i :: 0 <= i < |steps| ==> !steps[i].BeginManualRetry?)
    ensures WORKER !in s'.jobs && s'.rows == s.rows && s'.queue == s.queue
  {
    if WORKER !in s.jobs {
      steps := [];
    } else {
      match s.jobs[WORKER] {
        case Opening(_, _) =>
          steps := [EndCharge(WORKER, 0, false)];
          Single(s, steps[0]);
        case Copied(_, _) =>
          steps := [CallBank(WORKER, NO), EndRetry(WORKER, false)];
          ExecuteTwo(s, steps[0], steps[1]);
        case Settling(_, _) =>
          steps := [EndRetry(WORKER, false)];
          Single(s, steps[0]);
      }
    }
    s' := Execute(s, steps);
  }

  /** So does a copy waiting in the worker's queue. */
  lemma {:induction false} QueueUndoes(s: System, id: int, n: nat) returns (steps: seq<Step>)
    requires IsSuccess(s, id) && n < |s.queue| && s.queue[n].id == id
    ensures NoManualRetry(id, steps) && id in Execute(s, steps).rows && !IsSuccess(Execute(s, steps), id)
    decreases n
  {
    var s1, free := WorkerFinishes(s);
    var s2 := Next(s1, TakeNext);
    Single(s1, TakeNext);
    assert s2.rows == s.rows && s2.queue == s.queue[1..];
    assert WORKER in s2.jobs && s2.jobs[WORKER] == Copied(s.queue[0].id, s.queue[0].fee);
    hide Next, Execute;
    var more;
    if n == 0 { more := JobUndoes(s2, id, WORKER); } else { more := QueueUndoes(s2, id, n - 1); }
    ExecuteAppend(s1, [TakeNext], more);
    ExecuteAppend(s, free, [TakeNext] + more);
    steps := free + ([TakeNext] + more);
  }

  /** SUCCESS, exactly: whatever is written, lost or retried meanwhile, a SUCCESS row stays SUCCESS in every continuation
      without a new manual retry of it if and only if no job and no place in the worker's queue holds a copy of it, except
      retries that have already been settled. */
  lemma SuccessStaysIff(s: System, id: int)
    requires IsSuccess(s, id)
    ensures (forall steps :: NoManualRetry(id, steps) ==> IsSuccess(Execute(s, steps), id)) <==> OnlySettledCopies(s, id)
  {
    hide Execute, NoManualRetry;
    if OnlySettledCopies(s, id) {
      forall steps | NoManualRetry(id, steps) ensures IsSuccess(Execute(s, steps), id) { SuccessStays(s, steps, id); }
    } else if i :| 0 <= i < |s.queue| && s.queue[i].id == id {
      var steps := QueueUndoes(s, id, i);
    } else {
      var j :| j in s.jobs && Holds(s.jobs[j], id) && !(s.jobs[j].Settling? && s.jobs[j].fee.status.Success?);
      var steps := JobUndoes(s, id, j);
    }
  }

  lemma AndThen(s: System, steps: seq<Step>, s1: System, step: Step)
    requires s1 == Execute(s, steps)
    ensures Execute(s, steps + [step]) == Next(s1, step)
  {
    ExecuteAppend(s, steps, [step]);
    Single(s1, step);
  }

  /** Such a stale copy is within reach of every fee: deferred, listed by the worker, settled by hand, and the worker's copy
      still says PENDING. */
  lemma StaleCopyInReach(start: Instant, billing: Billing, reference: string) returns (steps: seq<Step>)
    ensures var s := Execute(Initial(start), steps);
            IsSuccess(s, 1) && s.rows[1].billing == billing && !OnlySettledCopies(s, 1)
  {
    var fee := Charged(billing, NO, start);
    var due := start + RetryDelay(0);
    var s2 := Deferred(start, billing);
    hide Execute;
    steps := [BeginCharge(1, billing, NO), EndCharge(1, 1, true)];
    var s3 := Next(s2, Tick(due));
    AndThen(Initial(start), steps, s2, Tick(due));
    steps := steps + [Tick(due)];
    var s4 := Next(s3, ListDue([1]));
    AndThen(Initial(start), steps, s3, ListDue([1]));
    steps := steps + [ListDue([1])];
    assert s4.queue == [Due(1, fee)] && s4.rows == map[1 := fee] && s4.jobs == map[];
    var s5 := Next(s4, BeginManualRetry(1, 1));
    AndThen(Initial(start), steps, s4, BeginManualRetry(1, 1));
    steps := steps + [BeginManualRetry(1, 1)];
    var s6 := Next(s5, CallBank(1, Settle(reference)));
    AndThen(Initial(start), steps, s5, CallBank(1, Settle(reference)));
    steps := steps + [CallBank(1, Settle(reference))];
    AndThen(Initial(start), steps, s6, EndRetry(1, true));
    steps := steps + [EndRetry(1, true)];
    assert Next(s6, EndRetry(1, true)).queue[0].id == 1;
  }

  lemma Deferred(start: Instant, billing: Billing) returns (s: System)
    ensures s == Execute(Initial(start), [BeginCharge(1, billing, NO), EndCharge(1, 1, true)])
    ensures s.rows == map[1 := Charged(billing, NO, start)] && s.jobs == map[] && s.queue == [] && s.clock == start
  {
    ExecuteTwo(Initial(start), BeginCharge(1, billing, NO), EndCharge(1, 1, true));
    s := Next(Next(Initial(start), BeginCharge(1, billing, NO)), EndCharge(1, 1, true));
  }
}
