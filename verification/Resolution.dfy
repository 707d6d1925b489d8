/** Audited correction of an operation by an operator; never a provider command. */
module Resolution {
  import opened Wrappers
  import opened Records
  import opened StateEngine
  import opened Rules

  /** What every constructed decision satisfies: it is attributed, evidenced, and establishes a
      terminal effect. */
  predicate DecisionValid(d: Decision) {
    && d.resolutionId != "" && d.actor != "" && d.reason != ""
    && d.evidenceReferences != []
    && d.outcome.state.Terminal() && !d.outcome.reconciliationRequired
  }

  /** The first retained decision with the given identity. */
  function FindDecision(decisions: seq<Decision>, id: string): Option<Decision> {
    if decisions == [] then None
    else if decisions[0].resolutionId == id then Some(decisions[0])
    else FindDecision(decisions[1..], id)
  }

  /** An already confirmed amount that the decision states differently. */
  predicate ChangesSettlement(op: OperationRecord, o: Outcome) {
    op.state.Succeeded? && ClaimedAmount(op, o) != op.settledAmount
  }

  /** A confirmed amount may only be raised, and only within its reservation. */
  predicate CorrectionAllowed(op: OperationRecord, o: Outcome) {
    var settled := ClaimedAmount(op, o);
    && settled.Some?
    && op.settledAmount.Some?
    && settled.value > 0.0
    && (op.resolvedAmount.Some? ==> settled.value <= op.resolvedAmount.value)
    && settled.value >= op.settledAmount.value
  }

  predicate LaterIntent(op: OperationRecord, operations: seq<OperationRecord>) {
    exists r :: r in operations && r.reservationSequence > op.reservationSequence
  }

  /** The record handed to the outcome planner: unflagged, and taken back to `Unknown` when the
      decision corrects a settled amount or revives a rejection. A corrected amount joins the disputes. */
  function Reopened(op: OperationRecord, o: Outcome): OperationRecord {
    var correcting := ChangesSettlement(op, o);
    op.(reconciliationRequired := false,
        conflictingOutcomes :=
          if correcting
          then RetainOutcome(op.conflictingOutcomes, Outcome(Succeeded, op.settledAmount, op.correlation, false, None))
          else op.conflictingOutcomes,
        state := if op.state.Rejected? || correcting then Unknown else op.state)
  }

  /** The plan's facts, keeping a `RefundStarted` status that the operation, already ended before the
      plan, completed no target to clear. */
  function WithMarker(facts: PaymentFacts, op: OperationRecord, plan: OutcomePlan): PaymentFacts {
    if op.state.Terminal() && facts.status.RefundStarted? && plan.relatedOperations == []
    then plan.facts.(status := RefundStarted) else plan.facts
  }

  function PlanResolution(facts: PaymentFacts, op: OperationRecord, d: Decision, expectedFacts: PaymentFacts,
                          expectedOperation: OperationRecord, operations: seq<OperationRecord>)
    : Result<OutcomePlan, Error>
  {
    if !DecisionValid(d) then Err(InvalidTransition)
    else
      var previous := FindDecision(op.resolutions, d.resolutionId);
      if previous.Some? then
        if previous.value != d then Err(OperationConflict) else Ok(OutcomePlan(op, facts, []))
      else if facts != expectedFacts || op != expectedOperation then Err(StateConflict)
      else if op.paymentId != facts.paymentId then Err(OperationConflict)
      else if !FactsBounded(facts) then Err(InvalidTransition)
      else if op.state.Succeeded? && !d.outcome.state.Succeeded? then Err(InvalidTransition)
      else if ChangesSettlement(op, d.outcome) && !CorrectionAllowed(op, d.outcome) then Err(InvalidTransition)
      else if (ChangesSettlement(op, d.outcome) || (op.state.Rejected? && d.outcome.state.Succeeded?))
              && LaterIntent(op, operations) then Err(InvalidTransition)
      else
        var plan :- PlanOutcome(facts, Reopened(op, d.outcome), d.outcome, operations, None);
        if plan.operation.reconciliationRequired then Err(InvalidTransition)
        else
          var recorded := plan.operation.(resolutions := op.resolutions + [d], pendingResponseAttempts := []);
          var marked := WithMarker(facts, op, plan);
          if !d.clearPaymentReconciliation then Ok(OutcomePlan(recorded, marked, plan.relatedOperations))
          else
            var current := Replaced(operations, [recorded] + plan.relatedOperations);
            if exists r :: r in current && r.reconciliationRequired then Err(OperationConflict)
            else Ok(OutcomePlan(recorded, marked.(reconciliationRequired := false), plan.relatedOperations))
  }
}
