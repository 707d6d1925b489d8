/** Recording evidence never fails: in every reachable state a well-formed outcome for any reserved
    operation is recorded. It settles, it is absorbed, or it is retained as a dispute. */
module Recording {
  import opened Wrappers
  import opened Records
  import opened StateEngine
  import opened RefundTotal
  import opened Rules
  import opened Effects
  import opened System
  import opened History
  import opened Steps
  import opened Decisions
  import opened Sums
  import opened Settlements

  /** The update that an accepted success applies, by the money it moves. */
  ghost predicate Applicable(f: PaymentFacts, u: Update) {
    && FactsBounded(f)
    && FinanciallyPossible(f, u)
    && u.correlated.None? && u.lockedAmount.None? && u.fraudEvent.None?
    && match u.paymentEvent
       case None => u.paidAmount.None? && u.refundedAmount.None?
       case Some(PaymentCaptured) => u.paidAmount.Some? && u.refundedAmount.None?
       case Some(RefundConfirmed) => u.paidAmount.None? && u.refundedAmount.GetOr(0.0) > 0.0
       case Some(LockReleased) => u.paidAmount.None? && u.refundedAmount.None? && f.remainingAuthorization > 0.0
       case Some(PreparedEvent) => u.paidAmount.None? && u.refundedAmount.None? && f.status.New?
       case _ => false
  }

  lemma TotalsApply(f: PaymentFacts, u: Update)
    requires Applicable(f, u)
    ensures var v := ViewOf(f);
      && ApplyCaptureTotal(v, u).Ok?
      && ApplyRefundTotal(ApplyCaptureTotal(v, u).value, u).Ok?
      && Bounded(ApplyRefundTotal(ApplyCaptureTotal(v, u).value, u).value)
      && (u.paymentEvent in {Some(LockReleased), Some(PreparedEvent)} ==>
            ApplyRefundTotal(ApplyCaptureTotal(v, u).value, u).value == v)
  {
  }

  lemma EvidenceApplies(f: PaymentFacts, u: Update)
    requires Applicable(f, u)
    ensures ApplyToFacts(f, u).Ok?
  {
    hide ApplyCaptureTotal, ApplyRefundTotal;
    var update := WithoutStaleHold(f, u);
    assert update == u;
    TotalsApply(f, u);
    var v := ApplyRefundTotal(ApplyCaptureTotal(ViewOf(f), u).value, u).value;
    assert ApplyUpdate(v, LastUpdate(v, u)).Ok?;
    assert ApplyToView(ViewOf(f), u) == ApplyUpdate(v, LastUpdate(v, u));
  }

  /** A reserved cancellation finds the refund it names. */
  lemma TargetFound(s: State, i: nat)
    requires Sound(s) && i < |s.operations| && s.operations[i].operationType.CancelRefund?
    ensures FindRefund(s.operations, s.facts.paymentId, s.operations[i].Target()).Some?
  {
    var k := FindRefundFinds(s.operations, s.facts.paymentId, s.operations[i].Target());
    var j :| 0 <= j < i && s.operations[i].Cancels(s.operations[j]);
    assert RecordSound(s.facts, s.operations[j]);
    assert IsRefund(s.operations[j], s.facts.paymentId, s.operations[i].Target());
  }

  /** A reserved charge or refund always has an amount to settle. */
  lemma SettlementExists(s: State, i: nat, o: Outcome)
    requires Sound(s) && i < |s.operations|
    requires OutcomeFits(s.operations[i], o) && !ImpossibleSettlement(s.operations[i], o) && o.state.Succeeded?
    ensures SettlementUpdate(s.operations[i], o).Ok?
    ensures MovesMoney(s.operations[i]) ==> ClaimedAmount(s.operations[i], o).GetOr(0.0) > 0.0
  {
    assert RecordSound(s.facts, s.operations[i]);
  }

  lemma EffectExists(s: State, i: nat, f: PaymentFacts, o: Outcome)
    requires Sound(s) && i < |s.operations| && f.paymentId == s.facts.paymentId
    requires SettlementUpdate(s.operations[i], o).Ok?
    ensures SettlementEffect(f, s.operations[i], o, s.operations).Ok?
  {
    hide ConfirmedRefundTotal, FindRefund, Sound;
    if s.operations[i].operationType.CancelRefund? {
      TargetFound(s, i);
    }
  }

  /** The refund total is never zero. */
  lemma RefundTotalPositive(s: State, i: nat, amount: Money)
    requires Sound(s) && i < |s.operations| && s.operations[i].operationType.StartRefund? && 0.0 < amount
    ensures 0.0 < ConfirmedRefundTotal(s.operations[i], amount, s.operations)
  {
    hide ConfirmedRefundTotal;
    var op := s.operations[i];
    var after := WithSettled(s.operations, i, op, amount);
    var xs := Contributions(after, StartRefund)[i..];
    RefundTotalAtLeast(s, i, op, amount, i);
    assert forall k :: 0 <= k < |s.operations| ==> RecordSound(s.facts, s.operations[k]);
    assert xs[0] == amount;
    SumNonNegative(xs[1..]);
  }

  lemma SettlementApplicable(s: State, i: nat, f: PaymentFacts, o: Outcome)
    requires Sound(s) && i < |s.operations| && FactsBounded(f)
    requires SettlementEffect(f, s.operations[i], o, s.operations).Ok?
    requires FinanciallyPossible(f, SettlementEffect(f, s.operations[i], o, s.operations).value.0)
    ensures Applicable(f, SettlementEffect(f, s.operations[i], o, s.operations).value.0)
  {
    hide ConfirmedRefundTotal, FindRefund, Sound, FinanciallyPossible;
    var op := s.operations[i];
    SettlementShape(f, op, o, s.operations);
    if op.operationType.StartRefund? {
      RefundTotalPositive(s, i, ClaimedAmount(op, o).value);
    }
  }

  /** Evidence of the right shape is always planned. */
  lemma EvidencePlanned(s: State, i: nat, o: Outcome)
    requires Sound(s) && i < |s.operations| && OutcomeFits(s.operations[i], o)
    ensures PlanEvidence(s.facts, s.operations[i], o, s.operations).Ok?
  {
    var op := s.operations[i];
    var known := Known(s.facts, op, o);
    if o.state.Succeeded? && !Absorbs(s.facts, op, o, s.operations) {
      SettlementExists(s, i, o);
      EffectExists(s, i, known, o);
      var effect := SettlementEffect(known, op, o, s.operations).value;
      if FinanciallyPossible(known, effect.0) {
        SettlementApplicable(s, i, known, o);
        EvidenceApplies(known, effect.0);
      }
    } else if o.state.Succeeded? && !ImpossibleSettlement(op, o) {
      SettlementExists(s, i, o);
    }
    hide SettlementEffect, SettlementUpdate, ApplyToFacts, FinanciallyPossible, CancellationSucceeded, FinishOutcome,
      Sound,
      ImpossibleSettlement, Annotated, ConflictingHandles;
  }

  /** The recorded evidence moved the operation with exactly the money it confirms, or left money,
      status and state alone. */
  ghost predicate SettledOrKept(s: State, i: nat, o: Outcome, t: State)
    requires i < |s.operations|
  {
    var op := s.operations[i];
    && PlanEvidence(s.facts, op, o, s.operations).Ok?
    && var plan := PlanEvidence(s.facts, op, o, s.operations).value;
    && t.facts == plan.facts
    && i < |t.operations|
    && t.operations[i] == plan.operation.(pendingResponseAttempts := t.operations[i].pendingResponseAttempts)
    && (|| Retained(s.facts, op, t.facts, plan.operation, plan.relatedOperations)
        || Advanced(s.facts, op, o, s.operations, t.facts, plan.operation, plan.relatedOperations))
  }

  lemma RecordedWhenFits(s: State, i: nat, o: Outcome, attempt: Option<int>)
    requires Sound(s) && i < |s.operations|
    ensures var op := s.operations[i];
      var recorded := StepOutcome(s, op.operationId, o, attempt);
      && (recorded.Ok? <==> OutcomeFits(op, o) && (attempt.Some? ==> 0 < attempt.value <= op.submissionAttempts))
      && (recorded.Ok? ==> SettledOrKept(s, i, o, recorded.value))
  {
    hide PlanEvidence, OutcomeFits, Retained, Advanced, OutcomeFrame, Replaced, Sound, RelatedTo, Forward,
      RecordSound, Without;
    var op := s.operations[i];
    FindsItself(s, i);
    if OutcomeFits(op, o) {
      EvidencePlanned(s, i, o);
      FactsForwardReflexive(s);
      EvidenceEffect(s.facts, op, o, s.operations);
      if StepOutcome(s, op.operationId, o, attempt).Ok? {
        var plan := PlanOutcome(s.facts, op, o, s.operations, attempt).value;
        OutcomeDevelops(s, i, s.facts, o, attempt);
        CommitDevelops(s, i, plan.operation, plan.relatedOperations, plan.facts);
      }
    } else {
      RefusedWhenUnfit(s.facts, op, o, s.operations);
    }
  }

  /** In any run, an outcome for a retained operation is refused exactly when it has the wrong shape
      or names an attempt that was never claimed. */
  lemma OutcomeAlwaysRecorded(s: State, commands: seq<Command>, i: nat, o: Outcome, attempt: Option<int>)
    requires Initial(s) && i < |Run(s, commands).operations|
    ensures var t := Run(s, commands);
      var op := t.operations[i];
      var recorded := Step(t, RecordOutcome(op.operationId, o, attempt));
      && (recorded.Ok? <==> OutcomeFits(op, o) && (attempt.Some? ==> 0 < attempt.value <= op.submissionAttempts))
      && (recorded.Ok? ==> SettledOrKept(t, i, o, recorded.value))
  {
    hide Sound, Develops, OutcomeFits, StepOutcome, SettledOrKept;
    InitialSound(s);
    RunDevelops(s, commands);
    RecordedWhenFits(Run(s, commands), i, o, attempt);
  }

  lemma RefusedWhenUnfit(f: PaymentFacts, op: OperationRecord, o: Outcome, operations: seq<OperationRecord>)
    requires !OutcomeFits(op, o)
    ensures PlanEvidence(f, op, o, operations).Err?
  {
  }

  // ---- a charge always has room ----

  /** What was reserved for capture fits the required amount, whatever was captured meanwhile. */
  lemma ChargeHasRoom(s: State, i: nat, o: Outcome)
    requires Sound(s) && i < |s.operations| && s.operations[i].operationType.Charge? && o.state.Succeeded?
    requires OutcomeFits(s.operations[i], o) && !Absorbs(s.facts, s.operations[i], o, s.operations)
    ensures var op := s.operations[i];
      var known := Known(s.facts, op, o);
      && SettlementEffect(known, op, o, s.operations).Ok?
      && FinanciallyPossible(known, SettlementEffect(known, op, o, s.operations).value.0)
  {
    hide CancellationSucceeded;
    SettlementExists(s, i, o);
    EffectExists(s, i, Known(s.facts, s.operations[i], o), o);
    assert RecordSound(s.facts, s.operations[i]);
  }

  /** In every run, a success of a charge that is still open settles it in exactly the amount stated,
      unless the amount lies outside the reservation or the handle contradicts the retained one: no
      capture that was reserved is ever disputed for want of room. */
  lemma ChargeAlwaysSettles(s: State, commands: seq<Command>, i: nat, o: Outcome, attempt: Option<int>)
    requires Initial(s)
    requires var t := Run(s, commands);
      && i < |t.operations|
      && var op := t.operations[i];
      && op.operationType.Charge? && op.IsActive() && o.state.Succeeded?
      && !ImpossibleSettlement(op, o) && !ConflictingHandles(t.facts, op, o)
      && Step(t, RecordOutcome(op.operationId, o, attempt)).Ok?
    ensures var t := Run(s, commands);
      var op := t.operations[i];
      var u := After(t, RecordOutcome(op.operationId, o, attempt));
      && i < |u.operations|
      && u.operations[i].state.Succeeded?
      && u.operations[i].settledAmount == ClaimedAmount(op, o)
      && ClaimedAmount(op, o).Some?
      && u.facts.capturedFunds == Max(t.facts.capturedFunds, op.startingCaptured + ClaimedAmount(op, o).value)
      && u.facts.refundedFunds == t.facts.refundedFunds
  {
    hide Sound, Develops, StepOutcome, Run, Initial;
    InitialSound(s);
    RunDevelops(s, commands);
    OpenChargeSettles(Run(s, commands), i, o, attempt);
  }

  lemma OpenChargeSettles(s: State, i: nat, o: Outcome, attempt: Option<int>)
    requires Sound(s) && i < |s.operations|
    requires var op := s.operations[i];
      && op.operationType.Charge? && op.IsActive() && o.state.Succeeded?
      && !ImpossibleSettlement(op, o) && !ConflictingHandles(s.facts, op, o)
      && StepOutcome(s, op.operationId, o, attempt).Ok?
    ensures var op := s.operations[i];
      var u := StepOutcome(s, op.operationId, o, attempt).value;
      && i < |u.operations|
      && u.operations[i].state.Succeeded?
      && u.operations[i].settledAmount == ClaimedAmount(op, o)
      && ClaimedAmount(op, o).Some?
      && u.facts.capturedFunds == Max(s.facts.capturedFunds, op.startingCaptured + ClaimedAmount(op, o).value)
      && u.facts.refundedFunds == s.facts.refundedFunds
  {
    hide Sound, StepOutcome, PlanEvidence, ApplyToFacts, FinanciallyPossible, SettlementEffect, Annotated,
      StatusFollows;
    var op := s.operations[i];
    RecordedWhenFits(s, i, o, attempt);
    ChargeHasRoom(s, i, o);
    SettledPlan(s.facts, op, o, s.operations);
    FinishedSucceeds(ApplyToFacts(Known(s.facts, op, o), SettlementEffect(Known(s.facts, op, o), op, o, s.operations).value.0).value,
                     Annotated(s.facts, op, o).(settledAmount := ClaimedAmount(op, o)),
                     SettlementEffect(Known(s.facts, op, o), op, o, s.operations).value.1, o, s.operations);
  }

  lemma FinishedSucceeds(f: PaymentFacts, recorded: OperationRecord, related: seq<OperationRecord>, o: Outcome,
                         operations: seq<OperationRecord>)
    requires o.state.Succeeded?
    ensures FinishOutcome(f, recorded, related, o, operations).operation.state.Succeeded?
  {
    hide Reprojected;
  }
}
