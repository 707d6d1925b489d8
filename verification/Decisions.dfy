/** Audited decisions keep histories sound; with them, every repository call does. */
module Decisions {
  import opened Wrappers
  import opened Records
  import opened StateEngine
  import opened Rules
  import opened Resolution
  import opened Effects
  import opened System
  import opened History
  import opened Steps

  /** A decision that is not the retry of a retained one was reviewed against current state and
      obeys the limits on corrections. */
  ghost predicate Decidable(s: State, i: nat, d: Decision) {
    && i < |s.operations|
    && var op := s.operations[i];
    && DecisionValid(d)
    && FindDecision(op.resolutions, d.resolutionId).None?
    && (op.state.Succeeded? ==> d.outcome.state.Succeeded?)
    && (ChangesSettlement(op, d.outcome) ==> CorrectionAllowed(op, d.outcome))
    && (ChangesSettlement(op, d.outcome) || (op.state.Rejected? && d.outcome.state.Succeeded?)
        ==> !LaterIntent(op, s.operations))
    && PlanOutcome(s.facts, Reopened(op, d.outcome), d.outcome, s.operations, None).Ok?
    && !PlanOutcome(s.facts, Reopened(op, d.outcome), d.outcome, s.operations, None).value.operation.reconciliationRequired
  }

  function DecidedPlan(s: State, i: nat, d: Decision): OutcomePlan
    requires Decidable(s, i, d)
  {
    PlanOutcome(s.facts, Reopened(s.operations[i], d.outcome), d.outcome, s.operations, None).value
  }

  function DecidedRecord(s: State, i: nat, d: Decision): OperationRecord
    requires Decidable(s, i, d)
  {
    DecidedPlan(s, i, d).operation.(resolutions := s.operations[i].resolutions + [d], pendingResponseAttempts := [])
  }

  /** The payment-wide flag is cleared only on request, and only when no dispute remains. */
  ghost predicate ClearsFlag(f: PaymentFacts, g: PaymentFacts, d: Decision, operations: seq<OperationRecord>) {
    if d.clearPaymentReconciliation
    then g == f.(reconciliationRequired := false) && forall r :: r in operations ==> !r.reconciliationRequired
    else g == f
  }

  lemma ResolveCases(s: State, id: string, d: Decision, op: OperationRecord, f: PaymentFacts) returns (i: nat)
    requires StepResolve(s, id, d, op, f).Ok?
    ensures IndexOf(s.operations, id) == Some(i) && i < |s.operations|
    ensures var t := StepResolve(s, id, d, op, f).value;
      if FindDecision(s.operations[i].resolutions, d.resolutionId).Some?
      then t == Committed(s, s.facts, [s.operations[i]])
      else
        && Decidable(s, i, d)
        && s.facts == f && s.operations[i] == op
        && var plan := DecidedPlan(s, i, d);
        && t == Committed(s, t.facts, [DecidedRecord(s, i, d)] + plan.relatedOperations)
        && ClearsFlag(WithMarker(s.facts, s.operations[i], plan), t.facts, d, t.operations)
  {
    hide PlanOutcome, Reopened, Replaced, LaterIntent, FindDecision, WithMarker;
    i := IndexOf(s.operations, id).value;
    assert [s.operations[i]] + [] == [s.operations[i]];
  }

  lemma ReopenedSound(f: PaymentFacts, op: OperationRecord, d: Decision)
    requires RecordSound(f, op) && FactsBounded(f)
    ensures var r := Reopened(op, d.outcome);
      && SameIntent(op, r)
      && SameSubmission(op, r)
      && r.settledAmount == op.settledAmount
      && op.conflictingOutcomes <= r.conflictingOutcomes
      && r.pendingResponseAttempts == op.pendingResponseAttempts
      && r.recoveryEvidence == op.recoveryEvidence
      && r.correlation == op.correlation
      && (r.state == if op.state.Rejected? || ChangesSettlement(op, d.outcome) then Unknown else op.state)
  {
  }

  /** What a decision does to its operation: it ends terminal, quiet and no lower than before. */
  lemma DecidedForward(s: State, i: nat, d: Decision)
    requires Sound(s) && Decidable(s, i, d)
    ensures var plan := DecidedPlan(s, i, d);
      && FactsForward(s.facts, plan.facts)
      && Forward(s.operations[i], DecidedRecord(s, i, d))
      && RecordSound(plan.facts, DecidedRecord(s, i, d))
      && RelatedTo(s.operations, i, plan.relatedOperations)
      && DecidedRecord(s, i, d).state == d.outcome.state
      && OutcomeEffect(s.facts, Reopened(s.operations[i], d.outcome), d.outcome, s.operations, plan)
      && (StatusProjects(s.facts) ==> StatusProjects(plan.facts))
  {
    hide PlanEvidence, Replaced, AnyActiveRefund, ConfirmedRefundTotal, WithPaid, FindRefund, LaterIntent,
      CancellationSucceeded, RelatedTo;
    var op := s.operations[i];
    var o := d.outcome;
    var r := Reopened(op, o);
    var plan := DecidedPlan(s, i, d);
    ReopenedSound(s.facts, op, d);
    EvidenceEffect(s.facts, r, o, s.operations);
    DecidedRelated(s, i, r, o, plan);
    hide Reopened, PlanOutcome;
  }

  lemma DecidedRelated(s: State, i: nat, r: OperationRecord, o: Outcome, plan: OutcomePlan)
    requires Sound(s) && i < |s.operations| && SameIntent(s.operations[i], r)
    requires OutcomeEffect(s.facts, r, o, s.operations, plan)
    ensures RelatedTo(s.operations, i, plan.relatedOperations)
  {
    hide SettledMoney, ConfirmedRefundTotal, FindRefund, Replaced, AnyActiveRefund, CancellationSucceeded, Sound;
    if plan.relatedOperations != [] {
      TargetRelated(s, i, s.facts, r, o, plan.relatedOperations);
    }
  }

  lemma WithMarkerForward(f: PaymentFacts, plan: OutcomePlan, op: OperationRecord, d: Decision,
                          operations: seq<OperationRecord>, g: PaymentFacts, r: OperationRecord)
    requires FactsForward(f, plan.facts) && RecordSound(plan.facts, r)
    requires ClearsFlag(WithMarker(f, op, plan), g, d, operations)
    ensures FactsForward(f, g) && RecordSound(g, r)
  {
  }

  lemma AcknowledgedStep(s: State, i: nat)
    requires Sound(s) && i < |s.operations|
    ensures Committed(s, s.facts, [s.operations[i]]) == s && Develops(s, s)
  {
    assert [s.operations[i]] + [] == [s.operations[i]];
    forall n | 0 <= n < |s.operations|
      ensures Replaced(s.operations, [s.operations[i]])[n] == s.operations[n]
    {
      ReplacedAt(s.operations, s.operations[i], [], n);
      ForwardReflexive(s.operations[n]);
    }
    forall n | 0 <= n < |s.operations| {
      ForwardReflexive(s.operations[n]);
    }
  }

  lemma ResolveStep(s: State, id: string, d: Decision, op: OperationRecord, f: PaymentFacts)
    requires Sound(s) && StepResolve(s, id, d, op, f).Ok?
    ensures var t := StepResolve(s, id, d, op, f).value;
      Sound(t) && Develops(s, t)
  {
    hide StepResolve, Decidable, Sound, Develops, FactsForward, Forward, RecordSound, RelatedTo, ClearsFlag,
      OutcomeEffect;
    var t := StepResolve(s, id, d, op, f).value;
    var i := ResolveCases(s, id, d, op, f);
    if FindDecision(s.operations[i].resolutions, d.resolutionId).Some? {
      AcknowledgedStep(s, i);
    } else {
      var plan := DecidedPlan(s, i, d);
      DecidedForward(s, i, d);
      WithMarkerForward(s.facts, plan, s.operations[i], d, t.operations, t.facts, DecidedRecord(s, i, d));
      CommitDevelops(s, i, DecidedRecord(s, i, d), plan.relatedOperations, t.facts);
    }
  }

  // ---- every call, every run ----

  /** Every accepted call keeps the history sound and only develops it. */
  lemma StepDevelops(s: State, c: Command)
    requires Sound(s) && Step(s, c).Ok?
    ensures Sound(Step(s, c).value) && Develops(s, Step(s, c).value)
  {
    hide StepObserve, StepReserve, StepClaim, StepOutcome, StepFailure, StepResolve, Sound, Develops;
    match c
    case Observe(u) => ObserveStep(s, u);
    case Reserve(intent) => ReserveStep(s, intent);
    case Claim(id, attempt, now, until, scope) => ClaimStep(s, id, attempt, now, until, scope);
    case RecordOutcome(id, o, attempt) => OutcomeStep(s, id, o, attempt);
    case RecordFailure(id, evidence) => FailureStep(s, id, evidence);
    case Resolve(id, d, op, f) => ResolveStep(s, id, d, op, f);
  }

  lemma AfterDevelops(s: State, c: Command)
    requires Sound(s)
    ensures Sound(After(s, c)) && Develops(s, After(s, c))
  {
    if Step(s, c).Ok? {
      hide Step, Sound, Develops;
      StepDevelops(s, c);
    } else {
      NoObservation(s);
    }
  }

  /** In any run from a sound state, whatever calls are made in whatever order, money is never
      driven backwards, no dispute, claim or audit is dropped, every record keeps its place and
      only moves forward, and the history stays sound. */
  lemma {:induction false} RunDevelops(s: State, commands: seq<Command>)
    requires Sound(s)
    ensures Sound(Run(s, commands)) && Develops(s, Run(s, commands))
  {
    if commands == [] {
      NoObservation(s);
    } else {
      hide Sound, Develops;
      var rest := commands[..|commands| - 1];
      RunDevelops(s, rest);
      AfterDevelops(Run(s, rest), commands[|commands| - 1]);
      DevelopsTransitive(s, Run(s, rest), Run(s, commands));
    }
  }

  /** A payment starts sound. */
  lemma InitialSound(s: State)
    requires Initial(s)
    ensures Sound(s)
  {
  }

  // ---- who holds the payment ----

  /** Two operations hold a payment together only as a pending refund and the cancellation that
      names it. */
  lemma HoldersArePaired(s: State, commands: seq<Command>, i: nat, j: nat)
    requires Initial(s)
    requires var t := Run(s, commands); i < j < |t.operations| && t.operations[i].Holds() && t.operations[j].Holds()
    ensures var t := Run(s, commands);
      && t.operations[j].Cancels(t.operations[i])
      && forall k :: 0 <= k < |t.operations| && t.operations[k].Holds() ==> k == i || k == j
  {
    RunDevelops(s, commands);
    hide Sound, Develops;
    var t := Run(s, commands);
    HoldersCancel(t, i, j);
    forall k | 0 <= k < |t.operations| && t.operations[k].Holds() && k != i
      ensures k == j
    {
      if k != j {
        HoldersCancel(t, i, k);
        HoldersCancel(t, j, k);
        assert false;
      }
    }
  }

  lemma HoldersCancel(s: State, i: int, j: int)
    requires Sound(s) && 0 <= i < |s.operations| && 0 <= j < |s.operations| && i != j
    requires s.operations[i].Holds() && s.operations[j].Holds()
    ensures if i < j then s.operations[j].Cancels(s.operations[i]) else s.operations[i].Cancels(s.operations[j])
  {
  }

  /** An operation that stopped holding the payment never holds it again. */
  lemma HoldingIsNotRegained(s: State, commands: seq<Command>, i: nat)
    requires Sound(s) && i < |s.operations| && !s.operations[i].Holds()
    ensures i < |Run(s, commands).operations| && !Run(s, commands).operations[i].Holds()
    ensures Run(s, commands).operations[i].operationId == s.operations[i].operationId
  {
    RunDevelops(s, commands);
    assert Forward(s.operations[i], Run(s, commands).operations[i]);
  }
}
