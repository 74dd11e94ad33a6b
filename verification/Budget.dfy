/** The cloud-call budget of one run. One call is held back for the operation that writes the answer. */
module Budgets {
  import opened Json

  datatype Limits = Limits(
    maxTasks: nat,
    localConcurrency: nat,
    cloudCalls: nat,
    cloudWorkerCalls: nat,
    cloudEnabled: bool
  )

  /** What the relay's own configuration check lets through. */
  predicate ValidLimits(limits: Limits) {
    1 <= limits.maxTasks <= 12 && 1 <= limits.localConcurrency <= 4
  }

  datatype Operation = Attempt | Solve | Critique | Plan | Work | Synthesize | Answer

  /** The operations that write the final answer. */
  predicate Final(op: Operation) {
    op.Synthesize? || op.Answer?
  }

  datatype Spent = Spent(calls: nat, workerCalls: nat)

  const DISABLED := "Cloud is disabled and no local answer was trusted"
  const EXHAUSTED := "Cloud call budget exhausted (final synthesis reserved)"
  const WORKERS_EXHAUSTED := "Cloud worker budget exhausted"

  /** Why the budget refuses this operation, or None. */
  function Refusal(limits: Limits, spent: Spent, op: Operation): Option<string> {
    if !limits.cloudEnabled then Some(DISABLED)
    else if spent.calls >= limits.cloudCalls - (if Final(op) then 0 else 1) then Some(EXHAUSTED)
    else if op.Work? && spent.workerCalls >= limits.cloudWorkerCalls then Some(WORKERS_EXHAUSTED)
    else None
  }

  function Charge(spent: Spent, op: Operation): Spent {
    Spent(spent.calls + 1, if op.Work? then spent.workerCalls + 1 else spent.workerCalls)
  }

  ghost predicate Within(limits: Limits, spent: Spent) {
    spent.workerCalls <= spent.calls <= limits.cloudCalls && spent.workerCalls <= limits.cloudWorkerCalls
  }

  /** Room is left for the call that writes the answer, if the configuration ever had any. */
  ghost predicate Reserved(limits: Limits, spent: Spent) {
    Within(limits, spent) && (limits.cloudCalls > 0 ==> spent.calls < limits.cloudCalls)
  }

  lemma ChargeStaysWithin(limits: Limits, spent: Spent, op: Operation)
    requires Within(limits, spent) && Refusal(limits, spent, op).None?
    ensures Within(limits, Charge(spent, op))
    ensures !Final(op) ==> Reserved(limits, Charge(spent, op))
  {
  }

  /** A granted charge keeps the limits. */
  lemma KeepsWithin(limits: Limits, spent: Spent, op: Operation)
    ensures Within(limits, spent) && Refusal(limits, spent, op).None? ==> Within(limits, Charge(spent, op))
  {
    if Within(limits, spent) && Refusal(limits, spent, op).None? {
      ChargeStaysWithin(limits, spent, op);
    }
  }

  /** A history of requests; refused ones cost nothing. */
  function SpendAll(limits: Limits, ops: seq<Operation>): Spent {
    if ops == [] then Spent(0, 0)
    else
      var n := |ops| - 1;
      var before := SpendAll(limits, ops[..n]);
      if Refusal(limits, before, ops[n]).None? then Charge(before, ops[n]) else before
  }

  /** Every history keeps the limits, and one without a final operation leaves room for it. */
  lemma {:induction false} HistoryKeepsReserve(limits: Limits, ops: seq<Operation>)
    ensures Within(limits, SpendAll(limits, ops))
    ensures (forall i :: 0 <= i < |ops| ==> !Final(ops[i])) ==> Reserved(limits, SpendAll(limits, ops))
  {
    if ops != [] {
      HistoryKeepsReserve(limits, ops[..|ops| - 1]);
    }
  }

  /** With the cloud enabled and a budget of at least one call, the final operation is never refused. */
  lemma FinalNeverRefused(limits: Limits, spent: Spent, op: Operation)
    requires limits.cloudEnabled && limits.cloudCalls >= 1 && Final(op)
    ensures Reserved(limits, spent) ==> Refusal(limits, spent, op).None?
  {
  }

  class CloudBudget {
    const limits: Limits
    var calls: nat
    var workerCalls: nat

    function Value(): Spent
      reads this
    {
      Spent(calls, workerCalls)
    }

    constructor (limits: Limits)
      ensures this.limits == limits && Value() == Spent(0, 0)
    {
      this.limits := limits;
      calls, workerCalls := 0, 0;
    }

    /** Charges one call, or refuses it and leaves the budget alone. */
    method Spend(op: Operation) returns (refused: Option<string>)
      modifies this
      ensures refused == Refusal(limits, old(Value()), op)
      ensures Value() == if refused.None? then Charge(old(Value()), op) else old(Value())
      ensures old(Within(limits, Value())) ==> Within(limits, Value())
    {
      ghost var before := Value();
      KeepsWithin(limits, before, op);
      if !limits.cloudEnabled {
        return Some(DISABLED);
      }
      var reserve := if Final(op) then 0 else 1;
      if calls >= limits.cloudCalls - reserve {
        return Some(EXHAUSTED);
      }
      if op.Work? {
        if workerCalls >= limits.cloudWorkerCalls {
          return Some(WORKERS_EXHAUSTED);
        }
        workerCalls := workerCalls + 1;
      }
      calls := calls + 1;
      return None;
    }
  }
}
