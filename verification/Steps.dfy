/** Every repository call keeps a sound history sound and only develops it. */
module Steps {
  import opened Wrappers
  import opened Records
  import opened StateEngine
  import opened Rules
  import opened Resolution
  import opened Effects
  import opened System
  import opened History

  /** The refund that a successful cancellation of `operations[i]` completes. */
  ghost predicate RelatedTo(operations: seq<OperationRecord>, i: nat, related: seq<OperationRecord>) {
    && i < |operations|
    && (related == [] || exists k :: CompletesTarget(operations, i, k, related))
  }

  ghost predicate CompletesTarget(operations: seq<OperationRecord>, i: nat, k: int, related: seq<OperationRecord>) {
    && i < |operations|
    && 0 <= k < |operations|
    && k != i
    && operations[k].ActiveRefund()
    && operations[i].Cancels(operations[k])
    && related == [operations[k].(state := Rejected)]
  }

  lemma PointwiseSound(s: State, t: State)
    requires Sound(s)
    requires FactsForward(s.facts, t.facts) && |t.operations| == |s.operations| && s.replay <= t.replay
    requires forall i :: 0 <= i < |s.operations| ==> Forward(s.operations[i], t.operations[i])
    requires forall i :: 0 <= i < |t.operations| ==> RecordSound(t.facts, t.operations[i])
    ensures Sound(t) && Develops(s, t)
  {
    forall j | 0 <= j < |t.operations| && t.operations[j].operationType.CancelRefund?
      ensures exists i :: 0 <= i < j && t.operations[j].Cancels(t.operations[i])
    {
      assert Forward(s.operations[j], t.operations[j]);
      var i :| 0 <= i < j && s.operations[j].Cancels(s.operations[i]);
      assert Forward(s.operations[i], t.operations[i]);
      assert t.operations[j].Cancels(t.operations[i]);
    }
    forall i, j | 0 <= i < j < |t.operations|
      ensures t.operations[i].operationId != t.operations[j].operationId
      ensures t.operations[i].reservationSequence < t.operations[j].reservationSequence
      ensures t.operations[i].Holds() ==> t.operations[j].Cancels(t.operations[i])
    {
      assert Forward(s.operations[i], t.operations[i]) && Forward(s.operations[j], t.operations[j]);
    }
  }

  lemma StillSound(f: PaymentFacts, g: PaymentFacts, r: OperationRecord)
    requires RecordSound(f, r) && FactsForward(f, g)
    ensures RecordSound(g, r)
    ensures r.IsActive() ==> RecordSound(g, r.(state := Rejected)) && Forward(r, r.(state := Rejected))
  {
  }

  lemma ForwardReflexive(r: OperationRecord)
    ensures Forward(r, r)
  {
  }

  /** Committing one developed record, with the target it may complete, develops the state. */
  lemma CommitDevelops(s: State, i: nat, final: OperationRecord, related: seq<OperationRecord>, g: PaymentFacts)
    requires Sound(s) && RelatedTo(s.operations, i, related)
    requires Forward(s.operations[i], final) && RecordSound(g, final) && FactsForward(s.facts, g)
    ensures var t := Committed(s, g, [final] + related);
      && Sound(t)
      && Develops(s, t)
      && |t.operations| == |s.operations|
      && t.operations[i] == final
      && (forall n :: 0 <= n < |s.operations| && n != i ==>
            t.operations[n] == if related != [] && related[0].operationId == s.operations[n].operationId
                               then related[0] else s.operations[n])
  {
    var t := Committed(s, g, [final] + related);
    forall n | 0 <= n < |s.operations|
      ensures Forward(s.operations[n], t.operations[n]) && RecordSound(g, t.operations[n])
      ensures n != i ==> t.operations[n] == if related != [] && related[0].operationId == s.operations[n].operationId
                                            then related[0] else s.operations[n]
      ensures n == i ==> t.operations[n] == final
    {
      ReplacedAt(s.operations, final, related, n);
      StillSound(s.facts, g, s.operations[n]);
      ForwardReflexive(s.operations[n]);
      assert n != i ==> s.operations[n].operationId != final.operationId;
      if related != [] {
        var k :| CompletesTarget(s.operations, i, k, related);
        assert s.operations[k].operationId == s.operations[n].operationId ==> k == n;
      }
    }
    PointwiseSound(s, t);
  }

  /** The cancellation target found by the planner is the record the cancellation names. */
  lemma TargetRelated(s: State, i: nat, f: PaymentFacts, op: OperationRecord, o: Outcome, related: seq<OperationRecord>)
    requires Sound(s) && i < |s.operations| && SameIntent(s.operations[i], op)
    requires CompletedTarget(f, op, o, s.operations, related)
    ensures RelatedTo(s.operations, i, related)
  {
    if related != [] {
      var k := FindRefundFinds(s.operations, f.paymentId, op.Target());
      assert CompletesTarget(s.operations, i, k, related);
    }
  }

  lemma EffectRelated(s: State, i: nat, f: PaymentFacts, o: Outcome, plan: OutcomePlan)
    requires Sound(s) && i < |s.operations|
    requires OutcomeEffect(f, s.operations[i], o, s.operations, plan)
    ensures RelatedTo(s.operations, i, plan.relatedOperations)
  {
    hide SettledMoney, ConfirmedRefundTotal, FindRefund, Replaced, AnyActiveRefund, CancellationSucceeded, Sound;
    if plan.relatedOperations != [] {
      TargetRelated(s, i, f, s.operations[i], o, plan.relatedOperations);
    }
  }

  lemma EffectForward(f: PaymentFacts, op: OperationRecord, o: Outcome, operations: seq<OperationRecord>,
                      plan: OutcomePlan)
    requires OutcomeEffect(f, op, o, operations, plan) && RecordSound(f, op)
    ensures FactsForward(f, plan.facts)
    ensures RecordSound(plan.facts, plan.operation)
    ensures Forward(op, plan.operation)
  {
    hide ConfirmedRefundTotal, FindRefund, Replaced, AnyActiveRefund, CancellationSucceeded, WithPaid;
  }

  /** Retiring one response only shortens the pending work. */
  lemma RetireForward(f: PaymentFacts, r: OperationRecord, attempt: int)
    requires RecordSound(f, r)
    ensures var after := r.(pendingResponseAttempts := Without(r.pendingResponseAttempts, attempt));
      RecordSound(f, after) && Forward(r, after)
  {
    var pending := Without(r.pendingResponseAttempts, attempt);
    WithoutKeeps(r.pendingResponseAttempts, attempt);
    forall k | 0 <= k < |pending|
      ensures 0 < pending[k] <= r.submissionAttempts
    {
      var x := pending[k];
      assert x in pending;
      assert x in r.pendingResponseAttempts;
    }
    if r.pendingResponseAttempts == [] {
      assert pending == [];
    }
  }

  /** An outcome for a retained operation, recorded against facts that may already have moved on. */
  lemma OutcomeDevelops(s: State, i: nat, mid: PaymentFacts, o: Outcome, responseAttempt: Option<int>)
    requires Sound(s) && i < |s.operations| && FactsForward(s.facts, mid)
    requires PlanOutcome(mid, s.operations[i], o, s.operations, responseAttempt).Ok?
    ensures var plan := PlanOutcome(mid, s.operations[i], o, s.operations, responseAttempt).value;
      && RelatedTo(s.operations, i, plan.relatedOperations)
      && Forward(s.operations[i], plan.operation)
      && RecordSound(plan.facts, plan.operation)
      && FactsForward(s.facts, plan.facts)
  {
    hide PlanEvidence, OutcomeEffect, Without;
    var op := s.operations[i];
    var inner := PlanEvidence(mid, op, o, s.operations).value;
    StillSound(s.facts, mid, op);
    EvidenceEffect(mid, op, o, s.operations);
    EffectForward(mid, op, o, s.operations, inner);
    EffectRelated(s, i, mid, o, inner);
    if responseAttempt.Some? {
      RetireForward(inner.facts, inner.operation, responseAttempt.value);
      ForwardTransitive(op, inner.operation,
        inner.operation.(pendingResponseAttempts := Without(inner.operation.pendingResponseAttempts, responseAttempt.value)));
    }
  }

  lemma OutcomeStep(s: State, id: string, o: Outcome, responseAttempt: Option<int>)
    requires Sound(s) && StepOutcome(s, id, o, responseAttempt).Ok?
    ensures var t := StepOutcome(s, id, o, responseAttempt).value;
      Sound(t) && Develops(s, t)
  {
    hide PlanOutcome, Sound, Develops, RelatedTo, Committed, FactsForward;
    var i := IndexOf(s.operations, id).value;
    var plan := PlanOutcome(s.facts, s.operations[i], o, s.operations, responseAttempt).value;
    FactsForwardReflexive(s);
    OutcomeDevelops(s, i, s.facts, o, responseAttempt);
    CommitDevelops(s, i, plan.operation, plan.relatedOperations, plan.facts);
  }

  lemma FactsForwardReflexive(s: State)
    requires Sound(s)
    ensures FactsForward(s.facts, s.facts)
  {
  }

  // ---- observations ----

  lemma RetainForward(f: PaymentFacts, u: Update, reason: ConflictReason)
    requires FactsBounded(f)
    ensures FactsForward(f, RetainObservation(f, u, reason)) && SameMoney(f, RetainObservation(f, u, reason))
    ensures RetainObservation(f, u, reason).status == f.status
  {
  }

  /** Screening retains ambiguities and moves no money. */
  lemma ScreenedForward(f: PaymentFacts, u: Update)
    requires FactsBounded(f)
    ensures var (g, aggregate) := Screened(f, u);
      && FactsForward(f, g)
      && SameMoney(f, g)
      && g.status == f.status
      && (f.reconciliationRequired ==> g.reconciliationRequired)
      && aggregate.paidAmount == (if u.DeltaOnly() then None else u.paidAmount)
      && aggregate.refundedAmount == (if u.DeltaOnly() then None else u.refundedAmount)
      && aggregate.paymentEvent != Some(RefundCancelled)
  {
  }

  lemma AggregateForward(f: PaymentFacts, u: Update)
    requires FactsBounded(f) && AggregateFacts(f, u).Ok?
    ensures var g := AggregateFacts(f, u).value;
      && FactsForward(f, g)
      && g.capturedFunds == (if u.DeltaOnly() then f.capturedFunds else Max(f.capturedFunds, u.paidAmount.GetOr(f.capturedFunds)))
      && g.refundedFunds == (if u.DeltaOnly() then f.refundedFunds else Max(f.refundedFunds, u.refundedAmount.GetOr(f.refundedFunds)))
      && (f.reconciliationRequired ==> g.reconciliationRequired)
      && (StatusProjects(f) ==> StatusProjects(g))
  {
    hide Screened, ApplyToFacts;
    ScreenedForward(f, u);
    AppliedFacts(Screened(f, u).0, Screened(f, u).1);
    if StatusProjects(f) {
      AppliedStatus(Screened(f, u).0, Screened(f, u).1);
    }
  }

  /** The operation an observation's outcome is applied to, if any. */
  ghost predicate CorrelatedAt(s: State, u: Update, i: nat) {
    && i < |s.operations|
    && u.OutcomePart().Some?
    && AggregateFacts(s.facts, u).Ok?
    && Candidate(s.facts, u.correlated.value, u.OutcomePart().value, s.operations[i])
    && DeltaMatches(u, s.operations[i], u.OutcomePart().value)
    && PlanOutcome(AggregateFacts(s.facts, u).value, s.operations[i], u.OutcomePart().value, s.operations, None).Ok?
  }

  function CorrelatedPlan(s: State, u: Update, i: nat): OutcomePlan
    requires CorrelatedAt(s, u, i)
  {
    PlanOutcome(AggregateFacts(s.facts, u).value, s.operations[i], u.OutcomePart().value, s.operations, None).value
  }

  /** An observation that touches no operation: it is only retained, or its totals apply. */
  ghost predicate ObservedAlone(s: State, u: Update, t: State) {
    && t.operations == s.operations
    && FactsForward(s.facts, t.facts)
    && (s.facts.reconciliationRequired ==> t.facts.reconciliationRequired)
    && (|| (SameMoney(s.facts, t.facts) && t.facts.status == s.facts.status)
        || (&& AggregateFacts(s.facts, u).Ok?
            && SameMoney(AggregateFacts(s.facts, u).value, t.facts)
            && t.facts.status == MarkedRefund(AggregateFacts(s.facts, u).value, s.operations).status))
  }

  lemma ReplacedNothing(operations: seq<OperationRecord>)
    ensures Replaced(operations, []) == operations
  {
  }

  lemma CandidateIndex(f: PaymentFacts, c: Correlated, o: Outcome, operations: seq<OperationRecord>) returns (i: nat)
    requires |Candidates(f, c, o, operations)| == 1
    ensures i < |operations| && operations[i] == Candidates(f, c, o, operations)[0]
    ensures Candidate(f, c, o, operations[i])
  {
    CandidatesFound(f, c, o, operations);
    var found := Candidates(f, c, o, operations)[0];
    assert found in Candidates(f, c, o, operations);
    i :| 0 <= i < |operations| && operations[i] == found;
  }

  /** New evidence that touches no operation applies its totals, and perhaps retains itself. */
  lemma AppliedAlone(s: State, u: Update, g: PaymentFacts)
    requires Sound(s) && AggregateFacts(s.facts, u).Ok?
    requires g == AggregateFacts(s.facts, u).value || exists reason :: g == RetainObservation(AggregateFacts(s.facts, u).value, u, reason)
    ensures ObservedAlone(s, u, Committed(s, MarkedRefund(g, s.operations), []))
  {
    hide AggregateFacts, AnyActiveRefund, Replaced, RetainObservation;
    var applied := AggregateFacts(s.facts, u).value;
    AggregateForward(s.facts, u);
    ReplacedNothing(s.operations);
    if g != applied {
      var reason :| g == RetainObservation(applied, u, reason);
      RetainForward(applied, u, reason);
      RetainFlags(applied, u, reason);
    }
  }

  lemma RetainFlags(f: PaymentFacts, u: Update, reason: ConflictReason)
    ensures RetainObservation(f, u, reason).reconciliationRequired
  {
  }

  lemma NewEvidenceCases(s: State, u: Update, record: Option<ReplayRecord>) returns (i: int)
    requires Sound(s) && PlanNewEvidence(s.facts, u, record, s.operations).Ok?
    ensures var plan := PlanNewEvidence(s.facts, u, record, s.operations).value;
      if i < 0 then ObservedAlone(s, u, Committed(s, plan.facts, plan.operations))
      else
        && CorrelatedAt(s, u, i)
        && var inner := CorrelatedPlan(s, u, i);
           && plan.operations == [inner.operation] + inner.relatedOperations
           && plan.facts == MarkedRefund(inner.facts, Replaced(s.operations, plan.operations))
  {
    hide AggregateFacts, Screened, PlanOutcome, Candidates, Candidate, Replaced, AnyActiveRefund, RetainObservation,
      Sound, ObservedAlone,
      FactsForward, MarkedRefund, DeltaMatches;
    var applied := AggregateFacts(s.facts, u).value;
    ReplacedNothing(s.operations);
    i := -1;
    if u.OutcomePart().Some? {
      var c, o := u.correlated.value, u.OutcomePart().value;
      var f := Screened(s.facts, u).0;
      if |Candidates(f, c, o, s.operations)| == 1 && DeltaMatches(u, Candidates(f, c, o, s.operations)[0], o) {
        ScreenedSame(s, u);
        i := CandidateIndex(f, c, o, s.operations);
        SameCandidates(s.facts, f, c, o, s.operations[i]);
      } else {
        AppliedAlone(s, u, RetainObservation(applied, u, UncorrelatedOutcome));
        AppliedAlone(s, u, RetainObservation(applied, u, ConflictingDelta));
      }
    } else {
      AppliedAlone(s, u, applied);
    }
  }

  lemma ScreenedSame(s: State, u: Update)
    requires Sound(s)
    ensures SameIdentity(s.facts, Screened(s.facts, u).0)
  {
    hide Screened;
    ScreenedForward(s.facts, u);
  }

  lemma SameCandidates(f: PaymentFacts, g: PaymentFacts, c: Correlated, o: Outcome, r: OperationRecord)
    requires SameIdentity(f, g)
    ensures Candidate(f, c, o, r) == Candidate(g, c, o, r)
  {
  }

  /** Every accepted observation either touches no operation or settles one correlated operation. */
  lemma ObserveCases(s: State, u: Update) returns (i: int)
    requires Sound(s) && StepObserve(s, Some(u)).Ok?
    ensures var t := StepObserve(s, Some(u)).value;
      if i < 0 then ObservedAlone(s, u, t)
      else
        && CorrelatedAt(s, u, i)
        && var plan := CorrelatedPlan(s, u, i);
           && t.operations == Replaced(s.operations, [plan.operation] + plan.relatedOperations)
           && t.facts == MarkedRefund(plan.facts, t.operations)
    ensures s.replay <= StepObserve(s, Some(u)).value.replay
  {
    hide PlanNewEvidence, AggregateFacts, Replaced, AnyActiveRefund, PlanOutcome, KnownReplay, FinanciallyPossible,
      ObservationValid;
    ReplacedNothing(s.operations);
    FactsForwardReflexive(s);
    RetainForward(s.facts, u, ConflictingIdentity);
    RetainForward(s.facts, u, FinancialConstraints);
    var record := ReplayFor(s.facts, u);
    if (record.Some? && KnownReplay(s.replay, record.value).Some?) || !FinanciallyPossible(s.facts, u) {
      i := -1;
    } else {
      i := NewEvidenceCases(s, u, record);
    }
  }

  lemma MarkedForward(f: PaymentFacts, g: PaymentFacts, operations: seq<OperationRecord>, r: OperationRecord)
    requires FactsForward(f, g) && RecordSound(g, r)
    ensures FactsForward(f, MarkedRefund(g, operations)) && RecordSound(MarkedRefund(g, operations), r)
  {
    hide AnyActiveRefund;
  }

  lemma AloneDevelops(s: State, u: Update, t: State)
    requires Sound(s) && ObservedAlone(s, u, t) && s.replay <= t.replay
    ensures Sound(t) && Develops(s, t)
  {
    forall i | 0 <= i < |s.operations|
      ensures Forward(s.operations[i], t.operations[i]) && RecordSound(t.facts, t.operations[i])
    {
      ForwardReflexive(s.operations[i]);
      StillSound(s.facts, t.facts, s.operations[i]);
    }
    PointwiseSound(s, t);
  }

  /** Soundness does not read the replay log. */
  lemma ReplayIndependent(s: State, t: State, u: State)
    requires t.facts == u.facts && t.operations == u.operations && s.replay <= u.replay
    requires Sound(t) && Develops(s, t)
    ensures Sound(u) && Develops(s, u)
  {
  }

  lemma ObserveStep(s: State, u: Option<Update>)
    requires Sound(s) && StepObserve(s, u).Ok?
    ensures var t := StepObserve(s, u).value;
      Sound(t) && Develops(s, t)
  {
    hide PlanObservation, Sound, Develops, CorrelatedAt, Replaced, MarkedRefund, Committed;
    var t := StepObserve(s, u).value;
    if u.None? {
      NoObservation(s);
    } else {
      var i := ObserveCases(s, u.value);
      if i < 0 {
        AloneDevelops(s, u.value, t);
      } else {
        CorrelatedStep(s, u.value, i, t);
      }
    }
  }

  lemma NoObservation(s: State)
    requires Sound(s)
    ensures StepObserve(s, None) == Ok(s) && Develops(s, s)
  {
    ReplacedNothing(s.operations);
    forall i | 0 <= i < |s.operations| {
      ForwardReflexive(s.operations[i]);
    }
  }

  lemma CorrelatedStep(s: State, u: Update, i: nat, t: State)
    requires Sound(s) && CorrelatedAt(s, u, i) && s.replay <= t.replay
    requires var plan := CorrelatedPlan(s, u, i);
      && t.operations == Replaced(s.operations, [plan.operation] + plan.relatedOperations)
      && t.facts == MarkedRefund(plan.facts, t.operations)
    ensures Sound(t) && Develops(s, t)
  {
    hide PlanOutcome, AggregateFacts, Sound, Develops, Replaced, MarkedRefund, FactsForward, RecordSound, Forward,
      RelatedTo;
    var mid := AggregateFacts(s.facts, u).value;
    var plan := CorrelatedPlan(s, u, i);
    AggregateForwardSound(s, u);
    OutcomeDevelops(s, i, mid, u.OutcomePart().value, None);
    MarkedForward(s.facts, plan.facts, t.operations, plan.operation);
    CommitDevelops(s, i, plan.operation, plan.relatedOperations, t.facts);
    ReplayIndependent(s, Committed(s, t.facts, [plan.operation] + plan.relatedOperations), t);
  }

  lemma AggregateForwardSound(s: State, u: Update)
    requires Sound(s) && AggregateFacts(s.facts, u).Ok?
    ensures FactsForward(s.facts, AggregateFacts(s.facts, u).value)
  {
    hide AggregateFacts;
    AggregateForward(s.facts, u);
  }

  // ---- claims, failures and reservations ----

  /** Changing one record in place. */
  lemma UpdateDevelops(s: State, i: nat, final: OperationRecord)
    requires Sound(s) && i < |s.operations|
    requires Forward(s.operations[i], final) && RecordSound(s.facts, final)
    ensures var t := s.(operations := s.operations[i := final]);
      Sound(t) && Develops(s, t)
  {
    var t := s.(operations := s.operations[i := final]);
    forall n | 0 <= n < |s.operations|
      ensures Forward(s.operations[n], t.operations[n]) && RecordSound(t.facts, t.operations[n])
    {
      ForwardReflexive(s.operations[n]);
    }
    PointwiseSound(s, t);
  }

  lemma SubmissionForwards(f: PaymentFacts, op: OperationRecord, attempt: int, now: Time, until: Option<Time>,
                           scope: Option<string>)
    requires RecordSound(f, op) && PlanSubmission(f, op, attempt, now, until, scope).Ok?
    ensures var plan := PlanSubmission(f, op, attempt, now, until, scope).value;
      Forward(op, plan.operation) && RecordSound(f, plan.operation)
  {
  }

  lemma ClaimStep(s: State, id: string, attempt: int, now: Time, until: Option<Time>, scope: Option<string>)
    requires Sound(s) && StepClaim(s, id, attempt, now, until, scope).Ok?
    ensures var t := StepClaim(s, id, attempt, now, until, scope).value;
      Sound(t) && Develops(s, t)
  {
    var i := IndexOf(s.operations, id).value;
    SubmissionForwards(s.facts, s.operations[i], attempt, now, until, scope);
    hide PlanSubmission, Develops, Forward, RecordSound;
    UpdateDevelops(s, i, PlanSubmission(s.facts, s.operations[i], attempt, now, until, scope).value.operation);
  }

  lemma FailureStep(s: State, id: string, evidence: RecoveryEvidence)
    requires Sound(s) && StepFailure(s, id, evidence).Ok?
    ensures var t := StepFailure(s, id, evidence).value;
      Sound(t) && Develops(s, t)
  {
    var i := IndexOf(s.operations, id).value;
    UpdateDevelops(s, i, PlanFailure(s.operations[i], evidence));
  }

  /** A new reservation comes after everything retained, and is blocked by every holder it does
      not cancel. */
  lemma ReservationAppends(s: State, intent: Intent)
    requires Sound(s) && PlanReservation(s.facts, s.operations, intent).Ok?
    requires PlanReservation(s.facts, s.operations, intent).value.created
    ensures var plan := PlanReservation(s.facts, s.operations, intent).value;
      && RecordSound(plan.facts, plan.operation)
      && FactsForward(s.facts, plan.facts)
      && SameMoney(s.facts, plan.facts)
      && (forall r :: r in s.operations ==>
            && r.operationId != plan.operation.operationId
            && r.reservationSequence < plan.operation.reservationSequence
            && (r.Holds() ==> plan.operation.Cancels(r)))
      && (plan.operation.operationType.CancelRefund? ==> exists r :: r in s.operations && plan.operation.Cancels(r))
  {
    var plan := PlanReservation(s.facts, s.operations, intent).value;
    LastSequenceIsGreatest(s.operations);
    assert FactsForward(s.facts, plan.facts);
    if intent.request.operationType.CancelRefund? {
      var k := CancellableFound(s.operations, IntentTarget(intent));
      assert s.operations[k] in s.operations;
      assert plan.operation.Target() == IntentTarget(intent);
      assert plan.operation.Cancels(s.operations[k]);
    }
    forall r | r in s.operations
      ensures r.operationId != intent.operationId
      ensures r.Holds() ==> plan.operation.Cancels(r)
    {
      assert !Blocks(r, intent, IntentTarget(intent));
    }
  }

  lemma ReserveStep(s: State, intent: Intent)
    requires Sound(s) && StepReserve(s, intent).Ok?
    ensures var t := StepReserve(s, intent).value;
      Sound(t) && Develops(s, t)
  {
    var t := StepReserve(s, intent).value;
    var plan := PlanReservation(s.facts, s.operations, intent).value;
    forall i | 0 <= i < |s.operations|
      ensures Forward(s.operations[i], t.operations[i])
    {
      ForwardReflexive(s.operations[i]);
    }
    if plan.created {
      ReservationAppends(s, intent);
      hide PlanReservation, Forward, RecordSound;
      AppendSound(s, plan.operation, plan.facts);
    } else {
      FactsForwardReflexive(s);
    }
  }

  lemma AppendSound(s: State, r: OperationRecord, g: PaymentFacts)
    requires Sound(s) && RecordSound(g, r) && FactsForward(s.facts, g)
    requires forall x :: x in s.operations ==>
      && x.operationId != r.operationId
      && x.reservationSequence < r.reservationSequence
      && (x.Holds() ==> r.Cancels(x))
    requires r.operationType.CancelRefund? ==> exists x :: x in s.operations && r.Cancels(x)
    ensures var t := s.(facts := g, operations := s.operations + [r]);
      Sound(t) && FactsForward(s.facts, g)
  {
    var t := s.(facts := g, operations := s.operations + [r]);
    var n := |s.operations|;
    AppendTargets(s.operations, r);
    forall i | 0 <= i < n
      ensures RecordSound(g, s.operations[i])
    {
      StillSound(s.facts, g, s.operations[i]);
    }
    hide RecordSound, TargetsRetained;
    forall i, j | 0 <= i < j <= n
      ensures t.operations[i].operationId != t.operations[j].operationId
      ensures t.operations[i].reservationSequence < t.operations[j].reservationSequence
      ensures t.operations[i].Holds() ==> t.operations[j].Cancels(t.operations[i])
    {
      if j == n {
        assert s.operations[i] in s.operations;
      }
    }
  }

  lemma AppendTargets(operations: seq<OperationRecord>, r: OperationRecord)
    requires TargetsRetained(operations)
    requires r.operationType.CancelRefund? ==> exists x :: x in operations && r.Cancels(x)
    ensures TargetsRetained(operations + [r])
  {
    var after := operations + [r];
    forall j | 0 <= j < |after| && after[j].operationType.CancelRefund?
      ensures exists i :: 0 <= i < j && after[j].Cancels(after[i])
    {
      if j == |operations| {
        var x :| x in operations && r.Cancels(x);
        var i :| 0 <= i < |operations| && operations[i] == x;
        assert after[j].Cancels(after[i]);
      } else {
        var i :| 0 <= i < j && operations[j].Cancels(operations[i]);
        assert after[j].Cancels(after[i]);
      }
    }
  }
}
