/** What the planners can do to the facts and to one operation, stated without their code. */
module Effects {
  import opened Wrappers
  import opened Records
  import opened StateEngine
  import opened RefundTotal
  import opened Rules
  import opened Resolution

  // ---- facts ----

  /** The context of a payment, which no rule ever changes. */
  ghost predicate SameIdentity(f: PaymentFacts, g: PaymentFacts) {
    && f.paymentId == g.paymentId
    && f.backend == g.backend
    && f.amountRequired == g.amountRequired
  }

  /** The status that captured money projects to when no refund is in progress. */
  function MoneyStatus(f: PaymentFacts): PaymentStatus {
    if f.refundedFunds > 0.0 then
      if f.refundedFunds >= f.capturedFunds then Refunded else PartiallyRefunded
    else if f.capturedFunds >= f.amountRequired then Paid
    else Partial
  }

  /** A payment with captured money shows either its money or a refund in progress. */
  ghost predicate StatusProjects(f: PaymentFacts) {
    f.capturedFunds > 0.0 ==> f.status == RefundStarted || f.status == MoneyStatus(f)
  }

  ghost predicate ViewProjects(v: View) {
    v.amountPaid > 0.0 ==> v.status == RefundStarted || v.status == ProjectStatus(v, false, false)
  }

  lemma EventKeepsProjection(v: View, u: Update)
    requires ViewProjects(v) && ApplyEvent(v, u).Ok?
    requires u.paidAmount.Some? ==> u.paidAmount.value >= 0.0
    ensures ViewProjects(ApplyEvent(v, u).value)
  {
  }

  lemma EngineKeepsProjection(v: View, u: Update)
    requires ViewProjects(v) && ApplyUpdate(v, u).Ok?
    ensures ViewProjects(ApplyUpdate(v, u).value)
  {
    hide ApplyEvent;
    EventKeepsProjection(WithEnvelope(v, u), u);
  }

  lemma CaptureStep(v: View, u: Update)
    requires ApplyCaptureTotal(v, u).Ok?
    ensures var w := ApplyCaptureTotal(v, u).value;
      && Bounded(w) == Bounded(v)
      && w.amountRequired == v.amountRequired
      && w.amountPaid == Max(v.amountPaid, u.paidAmount.GetOr(v.amountPaid))
      && w.amountRefunded == v.amountRefunded
      && w.amountLocked == WithPaid(v, u.paidAmount.GetOr(v.amountPaid)).amountLocked
      && w.externalId == v.externalId
  {
  }

  lemma RefundStep(v: View, u: Update)
    requires ApplyRefundTotal(v, u).Ok?
    ensures var w := ApplyRefundTotal(v, u).value;
      && Bounded(w) == Bounded(v)
      && w.amountRequired == v.amountRequired
      && w.amountPaid == v.amountPaid
      && w.amountRefunded == Max(v.amountRefunded, u.refundedAmount.GetOr(v.amountRefunded))
      && w.amountLocked == v.amountLocked
      && w.externalId == v.externalId
  {
  }

  /** The update that remains once its money totals are applied. */
  function LastUpdate(v: View, u: Update): Update {
    u.(providerEventId := None, paymentEvent := RemainingEvent(v, u), paidAmount := None, refundedAmount := None)
  }

  lemma LastStep(v: View, u: Update)
    requires ApplyUpdate(v, u).Ok? && u.paidAmount.None? && u.refundedAmount.None?
    ensures var w := ApplyUpdate(v, u).value;
      && Bounded(v)
      && Bounded(w)
      && w.amountRequired == v.amountRequired
      && w.amountPaid == v.amountPaid
      && w.amountRefunded == v.amountRefunded
      && (u.paymentEvent !in {Some(LockedEvent), Some(LockReleased)} ==> w.amountLocked == v.amountLocked)
      && (u.paymentEvent == Some(LockReleased) ==> w.amountLocked == 0.0)
      && (u.paymentEvent == Some(LockedEvent) ==>
            u.lockedAmount.Some? && w.amountLocked == Max(v.amountLocked, u.lockedAmount.value))
      && (u.paymentEvent == None ==> w.status == v.status)
  {
  }

  /** The money an update leaves behind: the greatest totals ever claimed. */
  lemma AppliedFacts(f: PaymentFacts, u: Update)
    requires ApplyToFacts(f, u).Ok?
    ensures var g := ApplyToFacts(f, u).value;
      && FactsBounded(f)
      && FactsBounded(g)
      && SameIdentity(f, g)
      && g.observationConflicts == f.observationConflicts
      && g.capturedFunds == Max(f.capturedFunds, u.paidAmount.GetOr(f.capturedFunds))
      && g.refundedFunds == Max(f.refundedFunds, u.refundedAmount.GetOr(f.refundedFunds))
      && (f.reconciliationRequired ==> g.reconciliationRequired)
      && (f.status.RefundStarted? && u.paymentEvent !in {Some(RefundConfirmed), Some(RefundCancelled)}
          ==> g.status.RefundStarted?)
  {
    hide ApplyUpdate, ApplyCaptureTotal, ApplyRefundTotal;
    var update := WithoutStaleHold(f, u);
    var v1 := ApplyCaptureTotal(ViewOf(f), update).value;
    var v2 := ApplyRefundTotal(v1, update).value;
    var last := LastUpdate(v2, update);
    assert ApplyToView(ViewOf(f), update) == ApplyUpdate(v2, last);
    CaptureStep(ViewOf(f), update);
    RefundStep(v1, update);
    LastStep(v2, last);
  }

  /** The hold an update leaves behind: nothing after a release; otherwise what the capture total
      leaves of it, raised by a lock claim that is not older than the recorded capture. */
  lemma AppliedAuthorization(f: PaymentFacts, u: Update)
    requires ApplyToFacts(f, u).Ok?
    ensures var g := ApplyToFacts(f, u).value;
      var left := WithPaid(ViewOf(f), u.paidAmount.GetOr(f.capturedFunds)).amountLocked;
      var current := u.paidAmount.GetOr(f.capturedFunds) >= f.capturedFunds;
      g.remainingAuthorization
      == if u.paymentEvent == Some(LockReleased) then 0.0
         else if u.paymentEvent == Some(LockedEvent) && current then Max(left, u.lockedAmount.GetOr(0.0))
         else left
  {
    hide ApplyUpdate, ApplyCaptureTotal, ApplyRefundTotal;
    var update := WithoutStaleHold(f, u);
    var v1 := ApplyCaptureTotal(ViewOf(f), update).value;
    var v2 := ApplyRefundTotal(v1, update).value;
    var last := LastUpdate(v2, update);
    assert ApplyToView(ViewOf(f), update) == ApplyUpdate(v2, last);
    CaptureStep(ViewOf(f), update);
    RefundStep(v1, update);
    LastStep(v2, last);
  }

  lemma AppliedStatus(f: PaymentFacts, u: Update)
    requires ApplyToFacts(f, u).Ok? && StatusProjects(f)
    ensures StatusProjects(ApplyToFacts(f, u).value)
  {
    hide ApplyUpdate;
    var update := WithoutStaleHold(f, u);
    var v0 := ViewOf(f);
    var v1 := ApplyCaptureTotal(v0, update).value;
    var v2 := ApplyRefundTotal(v1, update).value;
    if update.paidAmount.Some? {
      EngineKeepsProjection(v0, CaptureClaim(update.paidAmount.value));
    }
    if v2 != v1 {
      EngineKeepsProjection(v1, RefundClaim(update.refundedAmount.value));
    }
    EngineKeepsProjection(v2, LastUpdate(v2, update));
  }

  // ---- the refund marker ----

  lemma EventMarks(v: View, u: Update)
    requires ApplyEvent(v, u).Ok?
    ensures u.paymentEvent == Some(RefundRequested) ==> ApplyEvent(v, u).value.status == RefundStarted
    ensures u.paymentEvent != Some(RefundRequested) && ApplyEvent(v, u).value.status == RefundStarted ==>
      v.status == RefundStarted
  {
    hide WithPaid, CaptureRecordable, Refundable;
  }

  lemma EngineMarks(v: View, u: Update)
    requires ApplyUpdate(v, u).Ok?
    ensures u.paymentEvent == Some(RefundRequested) ==> ApplyUpdate(v, u).value.status == RefundStarted
    ensures u.paymentEvent != Some(RefundRequested) && ApplyUpdate(v, u).value.status == RefundStarted ==>
      v.status == RefundStarted
  {
    hide ApplyEvent;
    EventMarks(WithEnvelope(v, u), u);
  }

  /** Only a refund request creates the marker of a pending refund, and it always does. */
  lemma AppliedMarker(f: PaymentFacts, u: Update)
    requires ApplyToFacts(f, u).Ok?
    ensures u.paymentEvent == Some(RefundRequested) ==> ApplyToFacts(f, u).value.status == RefundStarted
    ensures u.paymentEvent != Some(RefundRequested) && ApplyToFacts(f, u).value.status == RefundStarted ==>
      f.status == RefundStarted
  {
    hide ApplyUpdate;
    var update := WithoutStaleHold(f, u);
    var v0 := ViewOf(f);
    var v1 := ApplyCaptureTotal(v0, update).value;
    var v2 := ApplyRefundTotal(v1, update).value;
    if update.paidAmount.Some? {
      EngineMarks(v0, CaptureClaim(update.paidAmount.value));
    }
    if v2 != v1 {
      EngineMarks(v1, RefundClaim(update.refundedAmount.value));
    }
    EngineMarks(v2, LastUpdate(v2, update));
  }

  // ---- outcomes ----

  /** What the reservation froze. */
  ghost predicate SameIntent(a: OperationRecord, b: OperationRecord) {
    && a.paymentId == b.paymentId
    && a.operationId == b.operationId
    && a.operationType == b.operationType
    && a.resolvedAmount == b.resolvedAmount
    && a.parametersDigest == b.parametersDigest
    && a.startingCaptured == b.startingCaptured
    && a.startingRefunded == b.startingRefunded
    && a.startingAuthorization == b.startingAuthorization
    && a.parameters == b.parameters
    && a.backend == b.backend
    && a.reservationSequence == b.reservationSequence
  }

  /** What the submission claims froze or counted. */
  ghost predicate SameSubmission(a: OperationRecord, b: OperationRecord) {
    && a.submittedAt == b.submittedAt
    && a.submissionAttempts == b.submissionAttempts
    && a.retryUntil == b.retryUntil
    && a.idempotencyScope == b.idempotencyScope
  }

  ghost predicate SameMoney(f: PaymentFacts, g: PaymentFacts) {
    && f.capturedFunds == g.capturedFunds
    && f.refundedFunds == g.refundedFunds
    && f.remainingAuthorization == g.remainingAuthorization
  }

  /** An outcome leaves these parts of the facts and of the operation alone, and only adds to
      the evidence. */
  ghost predicate OutcomeFrame(f: PaymentFacts, op: OperationRecord, g: PaymentFacts, after: OperationRecord) {
    && SameIdentity(f, g)
    && g.observationConflicts == f.observationConflicts
    && (f.reconciliationRequired ==> g.reconciliationRequired)
    && (after.reconciliationRequired ==> g.reconciliationRequired)
    && FactsBounded(g)
    && SameIntent(op, after)
    && SameSubmission(op, after)
    && after.pendingResponseAttempts == op.pendingResponseAttempts
    && after.recoveryEvidence == op.recoveryEvidence
    && after.resolutions == op.resolutions
    && op.conflictingOutcomes <= after.conflictingOutcomes
    && (op.correlation.Some? ==> after.correlation == op.correlation)
    && (op.reconciliationRequired ==> after.reconciliationRequired)
  }

  /** Evidence that was absorbed or disputed: no money and no state moves. Only a terminal
      operation absorbs evidence without being flagged. */
  ghost predicate Retained(f: PaymentFacts, op: OperationRecord, g: PaymentFacts, after: OperationRecord,
                           related: seq<OperationRecord>) {
    && SameMoney(f, g)
    && g.status == f.status
    && after.state == op.state
    && after.settledAmount == op.settledAmount
    && (op.state.Terminal() || after.reconciliationRequired)
    && related == []
  }

  /** The money and authorization a confirmed effect leaves behind. */
  ghost predicate SettledMoney(f: PaymentFacts, op: OperationRecord, amount: Option<Money>,
                               operations: seq<OperationRecord>, g: PaymentFacts) {
    match op.operationType
    case Charge =>
      && amount.Some?
      && 0.0 < amount.value
      && (op.resolvedAmount.Some? ==> amount.value <= op.resolvedAmount.value)
      && g.capturedFunds == Max(f.capturedFunds, op.startingCaptured + amount.value)
      && g.refundedFunds == f.refundedFunds
      && g.remainingAuthorization == WithPaid(ViewOf(f), op.startingCaptured + amount.value).amountLocked
    case StartRefund =>
      && amount.Some?
      && 0.0 < amount.value
      && (op.resolvedAmount.Some? ==> amount.value <= op.resolvedAmount.value)
      && g.capturedFunds == f.capturedFunds
      && g.refundedFunds == Max(f.refundedFunds, ConfirmedRefundTotal(op, amount.value, operations))
      && g.remainingAuthorization == f.remainingAuthorization
    case ReleaseLock =>
      && g.capturedFunds == f.capturedFunds
      && g.refundedFunds == f.refundedFunds
      && g.remainingAuthorization == 0.0
    case _ => SameMoney(f, g)
  }

  ghost predicate CompletedTarget(f: PaymentFacts, op: OperationRecord, o: Outcome,
                                  operations: seq<OperationRecord>, related: seq<OperationRecord>) {
    if op.operationType.CancelRefund? && o.state.Succeeded? then
      var target := FindRefund(operations, f.paymentId, op.Target());
      && target.Some?
      && related == if target.value.IsActive() then [target.value.(state := Rejected)] else []
    else related == []
  }

  ghost predicate RefundOperation(op: OperationRecord) {
    op.operationType.StartRefund? || op.operationType.CancelRefund?
  }

  /** The status shows an active refund; without one, captured money shows itself. */
  ghost predicate StatusFollows(g: PaymentFacts, operations: seq<OperationRecord>) {
    if AnyActiveRefund(operations) then g.status == RefundStarted
    else g.capturedFunds > 0.0 ==> g.status == MoneyStatus(g)
  }

  /** Evidence that moved the operation, with exactly the money it confirms. */
  ghost predicate Advanced(f: PaymentFacts, op: OperationRecord, o: Outcome, operations: seq<OperationRecord>,
                           g: PaymentFacts, after: OperationRecord, related: seq<OperationRecord>) {
    && (!op.state.Terminal() || CancelledRefundSettled(op, o, operations))
    && OutcomeFits(op, o)
    && after.state == NextState(op.state, o.state)
    && CompletedTarget(f, op, o, operations, related)
    && (if o.state.Succeeded?
        then after.settledAmount == ClaimedAmount(op, o)
             && SettledMoney(f, op, ClaimedAmount(op, o), operations, g)
        else after.settledAmount == op.settledAmount && SameMoney(f, g))
    && (RefundOperation(op) ==> StatusFollows(g, Replaced(operations, [after] + related) + [after]))
    && (!RefundOperation(op) && !o.state.Succeeded? ==> g.status == f.status)
    && (!RefundOperation(op) ==> (g.status.RefundStarted? <==> f.status.RefundStarted?))
  }

  /** The complete effect of one outcome. */
  ghost predicate OutcomeEffect(f: PaymentFacts, op: OperationRecord, o: Outcome, operations: seq<OperationRecord>,
                                plan: OutcomePlan) {
    && OutcomeFrame(f, op, plan.facts, plan.operation)
    && (|| Retained(f, op, plan.facts, plan.operation, plan.relatedOperations)
        || Advanced(f, op, o, operations, plan.facts, plan.operation, plan.relatedOperations))
    && (StatusProjects(f) ==> StatusProjects(plan.facts))
  }

  /** The update that a success of `op` applies. */
  lemma SettlementShape(f: PaymentFacts, op: OperationRecord, o: Outcome, operations: seq<OperationRecord>)
    requires SettlementEffect(f, op, o, operations).Ok?
    ensures var u := SettlementEffect(f, op, o, operations).value.0;
      var amount := ClaimedAmount(op, o);
      && u.correlated.None? && u.lockedAmount.None? && u.fraudEvent.None?
      && u.paymentEvent !in {Some(LockedEvent), Some(RefundCancelled), Some(RefundRequested)}
      && (op.operationType.Charge? || op.operationType.StartRefund? ==>
            amount.Some? && 0.0 < amount.value && (op.resolvedAmount.Some? ==> amount.value <= op.resolvedAmount.value))
      && (u.paidAmount == if op.operationType.Charge? then Some(op.startingCaptured + amount.value) else None)
      && (u.refundedAmount == if op.operationType.StartRefund?
                              then Some(ConfirmedRefundTotal(op, amount.value, operations)) else None)
      && (u.paymentEvent == Some(LockReleased) <==> op.operationType.ReleaseLock? && f.remainingAuthorization != 0.0)
      && (u.paymentEvent == Some(RefundConfirmed) <==> op.operationType.StartRefund?)
      && (op.operationType.CancelRefund? ==> u.paymentEvent.None?)
  {
    hide ConfirmedRefundTotal, FindRefund;
  }

  lemma SettlementTarget(f: PaymentFacts, op: OperationRecord, o: Outcome, operations: seq<OperationRecord>)
    requires SettlementEffect(f, op, o, operations).Ok? && o.state.Succeeded?
    ensures CompletedTarget(f, op, o, operations, SettlementEffect(f, op, o, operations).value.1)
  {
    hide ConfirmedRefundTotal, FindRefund;
  }

  /** A success that is applied moves exactly the money of its operation type. */
  lemma SettlementMoney(f: PaymentFacts, op: OperationRecord, o: Outcome, operations: seq<OperationRecord>)
    requires SettlementEffect(f, op, o, operations).Ok?
    requires ApplyToFacts(f, SettlementEffect(f, op, o, operations).value.0).Ok?
    ensures var g := ApplyToFacts(f, SettlementEffect(f, op, o, operations).value.0).value;
      && SettledMoney(f, op, ClaimedAmount(op, o), operations, g)
      && (!RefundOperation(op) ==> (g.status.RefundStarted? <==> f.status.RefundStarted?))
  {
    hide SettlementEffect, ApplyToFacts, ConfirmedRefundTotal;
    var u := SettlementEffect(f, op, o, operations).value.0;
    SettlementShape(f, op, o, operations);
    AppliedFacts(f, u);
    AppliedAuthorization(f, u);
    AppliedMarker(f, u);
  }

  /** The facts once an outcome's flags and payment handle are recorded. */
  function Known(f: PaymentFacts, op: OperationRecord, o: Outcome): PaymentFacts {
    f.(reconciliationRequired := f.reconciliationRequired || Annotated(f, op, o).reconciliationRequired,
       externalId := if o.externalId.Some? then o.externalId else f.externalId)
  }

  ghost predicate Absorbs(f: PaymentFacts, op: OperationRecord, o: Outcome, operations: seq<OperationRecord>) {
    || ImpossibleSettlement(op, o)
    || ConflictingHandles(f, op, o)
    || (op.state.Terminal() && !CancelledRefundSettled(op, o, operations))
  }

  lemma AbsorbedEvidence(f: PaymentFacts, op: OperationRecord, o: Outcome, operations: seq<OperationRecord>)
    requires FactsBounded(f)
    requires PlanEvidence(f, op, o, operations).Ok? && Absorbs(f, op, o, operations)
    ensures var plan := PlanEvidence(f, op, o, operations).value;
      && OutcomeFrame(f, op, plan.facts, plan.operation)
      && Retained(f, op, plan.facts, plan.operation, plan.relatedOperations)
  {
    hide SettlementEffect, SettlementUpdate, FinishOutcome, CancellationSucceeded;
  }

  /** Finishing an outcome moves the state and, for a refund or a cancellation, the status. */
  lemma FinishedStatus(g: PaymentFacts, recorded: OperationRecord, related: seq<OperationRecord>, o: Outcome,
                       operations: seq<OperationRecord>)
    ensures var plan := FinishOutcome(g, recorded, related, o, operations);
      && plan.relatedOperations == related
      && plan.operation == recorded.(state := NextState(recorded.state, o.state))
      && plan.facts == g.(status := plan.facts.status)
      && (!RefundOperation(recorded) ==> plan.facts == g)
      && (RefundOperation(recorded) ==>
            StatusFollows(plan.facts, Replaced(operations, [plan.operation] + related) + [plan.operation]))
  {
    hide Replaced, AnyActiveRefund;
  }

  lemma UnsettledEvidence(f: PaymentFacts, op: OperationRecord, o: Outcome, operations: seq<OperationRecord>)
    requires FactsBounded(f)
    requires PlanEvidence(f, op, o, operations).Ok? && !Absorbs(f, op, o, operations) && !o.state.Succeeded?
    ensures OutcomeEffect(f, op, o, operations, PlanEvidence(f, op, o, operations).value)
  {
    hide SettlementEffect, SettlementUpdate, FinishOutcome, CancellationSucceeded, Replaced, AnyActiveRefund;
    FinishedStatus(Known(f, op, o), Annotated(f, op, o), [], o, operations);
  }

  /** A success that is neither absorbed nor impossible is settled. */
  lemma SettledPlan(f: PaymentFacts, op: OperationRecord, o: Outcome, operations: seq<OperationRecord>)
    requires PlanEvidence(f, op, o, operations).Ok? && !Absorbs(f, op, o, operations) && o.state.Succeeded?
    ensures OutcomeFits(op, o)
    ensures SettlementEffect(Known(f, op, o), op, o, operations).Ok?
    ensures var known := Known(f, op, o);
      var recorded := Annotated(f, op, o);
      var effect := SettlementEffect(known, op, o, operations).value;
      if FinanciallyPossible(known, effect.0)
      then ApplyToFacts(known, effect.0).Ok?
           && PlanEvidence(f, op, o, operations).value
              == FinishOutcome(ApplyToFacts(known, effect.0).value,
                               recorded.(settledAmount := ClaimedAmount(op, o)), effect.1, o, operations)
      else PlanEvidence(f, op, o, operations).value == DisputedOutcome(known, recorded, o)
  {
    hide SettlementEffect, SettlementUpdate, FinishOutcome, CancellationSucceeded, DisputedOutcome,
      ApplyToFacts, FinanciallyPossible, Annotated;
  }

  lemma SettledEvidence(f: PaymentFacts, op: OperationRecord, o: Outcome, operations: seq<OperationRecord>)
    requires FactsBounded(f)
    requires PlanEvidence(f, op, o, operations).Ok? && !Absorbs(f, op, o, operations) && o.state.Succeeded?
    ensures OutcomeEffect(f, op, o, operations, PlanEvidence(f, op, o, operations).value)
  {
    hide PlanEvidence, SettlementEffect, FinishOutcome, CancellationSucceeded, Replaced, AnyActiveRefund,
      ApplyToFacts, ConfirmedRefundTotal, FindRefund, FinanciallyPossible;
    SettledPlan(f, op, o, operations);
    var known := Known(f, op, o);
    var effect := SettlementEffect(known, op, o, operations).value;
    SettlementTarget(known, op, o, operations);
    if FinanciallyPossible(known, effect.0) {
      var g := ApplyToFacts(known, effect.0).value;
      AppliedFacts(known, effect.0);
      SettlementMoney(known, op, o, operations);
      FinishedStatus(g, Annotated(f, op, o).(settledAmount := ClaimedAmount(op, o)), effect.1, o, operations);
      if StatusProjects(f) {
        AppliedStatus(known, effect.0);
      }
    }
  }

  /** Every outcome the planner accepts has the effect above, for any history. */
  lemma EvidenceEffect(f: PaymentFacts, op: OperationRecord, o: Outcome, operations: seq<OperationRecord>)
    requires FactsBounded(f)
    requires PlanEvidence(f, op, o, operations).Ok?
    ensures OutcomeEffect(f, op, o, operations, PlanEvidence(f, op, o, operations).value)
  {
    hide PlanEvidence, Absorbs;
    if Absorbs(f, op, o, operations) {
      AbsorbedEvidence(f, op, o, operations);
    } else if o.state.Succeeded? {
      SettledEvidence(f, op, o, operations);
    } else {
      UnsettledEvidence(f, op, o, operations);
    }
  }
}
