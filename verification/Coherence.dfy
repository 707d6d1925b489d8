/** The status of a payment in every reachable state: it shows every active refund, and otherwise
    the money. Hence no charge is reserved while money is being returned, or once it was. */
module Coherence {
  import opened Wrappers
  import opened Records
  import opened StateEngine
  import opened RefundTotal
  import opened Rules
  import opened Resolution
  import opened Effects
  import opened System
  import opened History
  import opened Steps
  import opened Decisions

  ghost predicate Coherent(s: State) {
    && (AnyActiveRefund(s.operations) ==> s.facts.status == RefundStarted)
    && StatusProjects(s.facts)
  }

  /** No record became an active refund. */
  ghost predicate NoNewRefund(before: seq<OperationRecord>, after: seq<OperationRecord>) {
    && |before| == |after|
    && forall n :: 0 <= n < |before| && after[n].ActiveRefund() ==> before[n].ActiveRefund()
  }

  lemma StillMarked(before: seq<OperationRecord>, after: seq<OperationRecord>)
    requires NoNewRefund(before, after) && AnyActiveRefund(after)
    ensures AnyActiveRefund(before)
  {
    var n :| 0 <= n < |after| && after[n].ActiveRefund();
    assert before[n].ActiveRefund();
  }

  // ---- outcomes ----

  /** The committed history has no active refund that the planner did not see. */
  lemma PlannerSeesRefunds(s: State, after: OperationRecord, final: OperationRecord, related: seq<OperationRecord>)
    requires |related| <= 1
    requires final.operationId == after.operationId && final.state == after.state && final.operationType == after.operationType
    requires AnyActiveRefund(Replaced(s.operations, [final] + related))
    ensures AnyActiveRefund(Replaced(s.operations, [after] + related) + [after])
  {
    var seen := Replaced(s.operations, [after] + related);
    var t := Replaced(s.operations, [final] + related);
    var n :| 0 <= n < |t| && t[n].ActiveRefund();
    ReplacedAt(s.operations, after, related, n);
    ReplacedAt(s.operations, final, related, n);
    assert (seen + [after])[n].ActiveRefund();
  }

  lemma UnrelatedRefunds(s: State, i: nat, final: OperationRecord, related: seq<OperationRecord>)
    requires Sound(s) && RelatedTo(s.operations, i, related) && SameIntent(s.operations[i], final)
    requires final.ActiveRefund() ==> s.operations[i].ActiveRefund()
    ensures NoNewRefund(s.operations, Replaced(s.operations, [final] + related))
  {
    var t := Replaced(s.operations, [final] + related);
    forall n | 0 <= n < |t| && t[n].ActiveRefund()
      ensures s.operations[n].ActiveRefund()
    {
      ReplacedAt(s.operations, final, related, n);
      assert n != i ==> s.operations[n].operationId != final.operationId;
    }
  }

  /** One recorded outcome, by a response, a query or a decision, keeps the status coherent. */
  lemma OutcomeCoherent(s: State, i: nat, op: OperationRecord, o: Outcome, plan: OutcomePlan, final: OperationRecord,
                        t: State)
    requires Sound(s) && Coherent(s) && RelatedTo(s.operations, i, plan.relatedOperations)
    requires SameIntent(s.operations[i], op) && OutcomeEffect(s.facts, op, o, s.operations, plan)
    requires final.state == plan.operation.state && SameIntent(op, final)
    requires op.state.Terminal() || plan.operation.reconciliationRequired ==> op.state == s.operations[i].state
    requires t.operations == Replaced(s.operations, [final] + plan.relatedOperations)
    requires SameIdentity(plan.facts, t.facts) && SameMoney(plan.facts, t.facts)
    requires t.facts.status == plan.facts.status || t.facts.status == RefundStarted
    ensures Coherent(t)
  {
    hide Sound, RelatedTo, SettledMoney, CompletedTarget, ConfirmedRefundTotal, WithPaid, FindRefund,
      CancellationSucceeded, Replaced;
    if AnyActiveRefund(t.operations) {
      RelatedAtMostOne(s, i, plan.relatedOperations);
      if Retained(s.facts, op, plan.facts, plan.operation, plan.relatedOperations) || !RefundOperation(op) {
        UnrelatedRefunds(s, i, final, plan.relatedOperations);
        StillMarked(s.operations, t.operations);
      } else {
        PlannerSeesRefunds(s, plan.operation, final, plan.relatedOperations);
      }
    }
  }

  lemma RelatedAtMostOne(s: State, i: nat, related: seq<OperationRecord>)
    requires RelatedTo(s.operations, i, related)
    ensures |related| <= 1
  {
  }

  lemma RecordCoherent(s: State, id: string, o: Outcome, attempt: Option<int>)
    requires Sound(s) && Coherent(s) && StepOutcome(s, id, o, attempt).Ok?
    ensures Coherent(StepOutcome(s, id, o, attempt).value)
  {
    hide PlanEvidence, Sound, Coherent, OutcomeEffect, Without, RelatedTo, Replaced, FactsForward, RecordSound, Forward;
    var i := IndexOf(s.operations, id).value;
    var op := s.operations[i];
    var inner := PlanEvidence(s.facts, op, o, s.operations).value;
    var plan := PlanOutcome(s.facts, op, o, s.operations, attempt).value;
    FactsForwardReflexive(s);
    SoundBounded(s);
    EvidenceEffect(s.facts, op, o, s.operations);
    EffectIntent(s.facts, op, o, s.operations, inner);
    OutcomeDevelops(s, i, s.facts, o, attempt);
    OutcomeCoherent(s, i, op, o, inner, plan.operation, StepOutcome(s, id, o, attempt).value);
  }

  lemma EffectIntent(f: PaymentFacts, op: OperationRecord, o: Outcome, operations: seq<OperationRecord>,
                     plan: OutcomePlan)
    requires OutcomeEffect(f, op, o, operations, plan)
    ensures SameIntent(op, plan.operation)
  {
  }

  lemma ResolveCoherent(s: State, id: string, d: Decision, expected: OperationRecord, f: PaymentFacts)
    requires Sound(s) && Coherent(s) && StepResolve(s, id, d, expected, f).Ok?
    ensures Coherent(StepResolve(s, id, d, expected, f).value)
  {
    hide StepResolve, Decidable, Sound, Coherent, OutcomeEffect, RelatedTo, Replaced, FactsForward, RecordSound,
      Forward;
    var t := StepResolve(s, id, d, expected, f).value;
    var i := ResolveCases(s, id, d, expected, f);
    if FindDecision(s.operations[i].resolutions, d.resolutionId).Some? {
      AcknowledgedStep(s, i);
    } else {
      var r := Reopened(s.operations[i], d.outcome);
      var plan := DecidedPlan(s, i, d);
      DecidedForward(s, i, d);
      RecordSoundAt(s, i);
      ReopenedSound(s.facts, s.operations[i], d);
      EffectIntent(s.facts, r, d.outcome, s.operations, plan);
      DecidedQuiet(s, i, d);
      OutcomeCoherent(s, i, r, d.outcome, plan, DecidedRecord(s, i, d), t);
    }
  }

  lemma RecordSoundAt(s: State, i: nat)
    requires Sound(s) && i < |s.operations|
    ensures RecordSound(s.facts, s.operations[i]) && FactsBounded(s.facts)
  {
  }

  lemma DecidedQuiet(s: State, i: nat, d: Decision)
    requires Decidable(s, i, d)
    ensures !DecidedPlan(s, i, d).operation.reconciliationRequired
  {
  }

  // ---- observations ----

  lemma ObserveCoherent(s: State, u: Option<Update>)
    requires Sound(s) && Coherent(s) && StepObserve(s, u).Ok?
    ensures Coherent(StepObserve(s, u).value)
  {
    hide PlanObservation, PlanOutcome, AggregateFacts, Sound, CorrelatedAt, Replaced, AnyActiveRefund, Committed,
      FactsForward, RecordSound, Forward;
    var t := StepObserve(s, u).value;
    if u.None? {
      NoObservation(s);
    } else {
      var i := ObserveCases(s, u.value);
      if i < 0 {
        AloneCoherent(s, u.value, t);
      } else {
        CorrelatedCoherent(s, u.value, i);
      }
    }
  }

  lemma AloneCoherent(s: State, u: Update, t: State)
    requires Sound(s) && Coherent(s) && ObservedAlone(s, u, t)
    ensures Coherent(t)
  {
    hide AggregateFacts, AnyActiveRefund;
    if AggregateFacts(s.facts, u).Ok? {
      AggregateForward(s.facts, u);
    }
  }

  lemma CorrelatedCoherent(s: State, u: Update, i: nat)
    requires Sound(s) && StatusProjects(s.facts) && CorrelatedAt(s, u, i)
    ensures StatusProjects(CorrelatedPlan(s, u, i).facts)
  {
    hide AggregateFacts, PlanEvidence, Candidate, DeltaMatches, Without;
    AggregateForward(s.facts, u);
    var mid := AggregateFacts(s.facts, u).value;
    EvidenceEffect(mid, s.operations[i], u.OutcomePart().value, s.operations);
  }

  // ---- reservations, claims and failures ----

  lemma ReserveCoherent(s: State, intent: Intent)
    requires Sound(s) && Coherent(s) && StepReserve(s, intent).Ok?
    ensures Coherent(StepReserve(s, intent).value)
  {
    var t := StepReserve(s, intent).value;
    var plan := PlanReservation(s.facts, s.operations, intent).value;
    if plan.created && !plan.operation.operationType.StartRefund? && AnyActiveRefund(t.operations) {
      var n :| 0 <= n < |t.operations| && t.operations[n].ActiveRefund();
      assert s.operations[n].ActiveRefund();
    }
  }

  lemma UpdateCoherent(s: State, i: nat, final: OperationRecord)
    requires Coherent(s) && i < |s.operations|
    requires final.ActiveRefund() ==> s.operations[i].ActiveRefund()
    ensures Coherent(s.(operations := s.operations[i := final]))
  {
    var t := s.(operations := s.operations[i := final]);
    if AnyActiveRefund(t.operations) {
      StillMarked(s.operations, t.operations);
    }
  }

  lemma ClaimCoherent(s: State, id: string, attempt: int, now: Time, until: Option<Time>, scope: Option<string>)
    requires Coherent(s) && StepClaim(s, id, attempt, now, until, scope).Ok?
    ensures Coherent(StepClaim(s, id, attempt, now, until, scope).value)
  {
    hide Coherent;
    var i := IndexOf(s.operations, id).value;
    UpdateCoherent(s, i, PlanSubmission(s.facts, s.operations[i], attempt, now, until, scope).value.operation);
  }

  lemma FailureCoherent(s: State, id: string, evidence: RecoveryEvidence)
    requires Coherent(s) && StepFailure(s, id, evidence).Ok?
    ensures Coherent(StepFailure(s, id, evidence).value)
  {
    hide Coherent;
    var i := IndexOf(s.operations, id).value;
    UpdateCoherent(s, i, PlanFailure(s.operations[i], evidence));
  }

  // ---- every run ----

  lemma StepCoherent(s: State, c: Command)
    requires Sound(s) && Coherent(s) && Step(s, c).Ok?
    ensures Coherent(Step(s, c).value)
  {
    hide StepObserve, StepReserve, StepClaim, StepOutcome, StepFailure, StepResolve, Sound, Coherent;
    match c
    case Observe(u) => ObserveCoherent(s, u);
    case Reserve(intent) => ReserveCoherent(s, intent);
    case Claim(id, attempt, now, until, scope) => ClaimCoherent(s, id, attempt, now, until, scope);
    case RecordOutcome(id, o, attempt) => RecordCoherent(s, id, o, attempt);
    case RecordFailure(id, evidence) => FailureCoherent(s, id, evidence);
    case Resolve(id, d, op, f) => ResolveCoherent(s, id, d, op, f);
  }

  lemma {:induction false} CoherentRun(s: State, commands: seq<Command>)
    requires Sound(s) && Coherent(s)
    ensures Coherent(Run(s, commands)) && Sound(Run(s, commands))
  {
    hide Sound, Coherent, Develops, Step;
    if commands == [] {
    } else {
      var rest := commands[..|commands| - 1];
      CoherentRun(s, rest);
      AfterDevelops(Run(s, rest), commands[|commands| - 1]);
      if Step(Run(s, rest), commands[|commands| - 1]).Ok? {
        StepCoherent(Run(s, rest), commands[|commands| - 1]);
      }
    }
  }

  // ---- no capture during or after a refund ----

  ghost predicate Returning(s: State) {
    AnyActiveRefund(s.operations) || s.facts.status == RefundStarted || s.facts.refundedFunds > 0.0
  }

  /** While money is being returned, and ever after it was, no new charge is accepted. */
  lemma NoCaptureWhileReturning(s: State, commands: seq<Command>, intent: Intent)
    requires Sound(s) && Coherent(s) && intent.request.operationType.Charge?
    requires var t := Run(s, commands); Returning(t) && IndexOf(t.operations, intent.operationId).None?
    ensures Step(Run(s, commands), Reserve(intent)).Err?
  {
    hide Run, Sound, StepReserve, StepObserve, StepClaim, StepOutcome, StepFailure, StepResolve, Coherent, Returning;
    CoherentRun(s, commands);
    ChargeRefused(Run(s, commands), intent);
  }

  lemma ChargeRefused(s: State, intent: Intent)
    requires Coherent(s) && Returning(s) && intent.request.operationType.Charge?
    requires IndexOf(s.operations, intent.operationId).None?
    ensures StepReserve(s, intent).Err?
  {
    hide AnyActiveRefund;
  }

  /** After the first returned money, no charge is ever added to the history again. */
  lemma {:induction false} NoCaptureAfterRefund(s: State, commands: seq<Command>)
    requires Sound(s) && s.facts.refundedFunds > 0.0
    ensures var t := Run(s, commands);
      forall k :: |s.operations| <= k < |t.operations| ==> !t.operations[k].operationType.Charge?
  {
    if commands == [] {
    } else {
      hide Sound, Step, FactsBounded;
      var rest := commands[..|commands| - 1];
      var last := commands[|commands| - 1];
      var t := Run(s, rest);
      NoCaptureAfterRefund(s, rest);
      RunDevelops(s, rest);
      AfterDevelops(t, last);
      NewRecordKind(t, last);
      var u := After(t, last);
      forall k | |s.operations| <= k < |u.operations|
        ensures !u.operations[k].operationType.Charge?
      {
        if k < |t.operations| {
          assert Forward(t.operations[k], u.operations[k]);
        }
      }
    }
  }

  lemma NewRecordKind(s: State, c: Command)
    requires Sound(s) && s.facts.refundedFunds > 0.0
    ensures var t := After(s, c);
      forall k :: |s.operations| <= k < |t.operations| ==> !t.operations[k].operationType.Charge?
  {
    hide PlanObservation, PlanOutcome, PlanResolution, PlanSubmission, PlanFailure, Sound;
  }
}
