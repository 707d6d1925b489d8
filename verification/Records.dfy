/** The value records of the durable contract: payment facts, operation intents, their
    durable reservations, provider evidence and audited decisions. */
module Records {
  import opened Wrappers

  /** Money is exact: no ordinary rule rounds it. */
  type Money = real

  /** An instant, in seconds. */
  type Time = int

  type Metadata = map<string, string>

  datatype Error = InvalidTransition | OperationConflict | ReconciliationBlocked | StateConflict | UnknownPayment

  datatype PaymentStatus =
    | New | Prepared | PreAuth | InCharge | Partial | Paid | Failed
    | RefundStarted | PartiallyRefunded | Refunded | Cancelled

  datatype FraudStatus = FraudUnknown | FraudAccepted | FraudRejected | FraudCheck

  datatype PaymentEvent =
    | PreparedEvent | LockedEvent | ChargeRequested | PaymentCaptured | FailedEvent
    | RefundRequested | RefundConfirmed | RefundCancelled | LockReleased

  datatype FraudEvent = Review | Accept | Reject

  datatype OperationType = Prepare | Charge | ReleaseLock | StartRefund | CancelRefund

  datatype OperationState = Reserved | Submitting | ProviderPending | Succeeded | Rejected | Unknown {
    predicate Active() {
      Reserved? || Submitting? || ProviderPending? || Unknown?
    }

    predicate Terminal() {
      Succeeded? || Rejected?
    }

    /** The states evidence from a provider may report. */
    predicate Evidence() {
      Succeeded? || Rejected? || ProviderPending? || Unknown?
    }
  }

  /** A provider's report on one operation: a state, an amount for a success, and handles. */
  datatype Outcome = Outcome(
    state: OperationState,
    settledAmount: Option<Money>,
    correlation: Option<string>,
    reconciliationRequired: bool,
    externalId: Option<string>)

  /** Safe response fields retained as a claim, never applied as money. */
  datatype RecoveryEvidence = RecoveryEvidence(
    state: Option<OperationState>,
    settledAmount: Option<Money>,
    correlation: Option<string>,
    externalId: Option<string>)

  /** An operator's evidenced decision. */
  datatype Decision = Decision(
    resolutionId: string,
    actor: string,
    reason: string,
    evidenceReferences: seq<string>,
    resolvedAt: Time,
    outcome: Outcome,
    clearPaymentReconciliation: bool)

  /** The immutable content of a request. Its digest is an injective function of this
      content, so the content itself stands for the digest. */
  datatype Request = Request(operationType: OperationType, amount: Option<Money>, parameters: Metadata)

  datatype Intent = Intent(operationId: string, request: Request)

  /** The idempotency key is an injective function of these three identities. */
  datatype IdempotencyKey = IdempotencyKey(backend: string, paymentId: string, operationId: string)

  const CANCELLATION_TARGET := "target_operation_id"
  const CANCELLATION_CORRELATION := "target_correlation"

  datatype OperationRecord = OperationRecord(
    paymentId: string,
    operationId: string,
    operationType: OperationType,
    state: OperationState,
    resolvedAmount: Option<Money>,
    parametersDigest: Request,
    startingCaptured: Money,
    startingRefunded: Money,
    startingAuthorization: Money,
    parameters: Metadata,
    backend: string,
    reservationSequence: int,
    submittedAt: Option<Time>,
    submissionAttempts: int,
    pendingResponseAttempts: seq<int>,
    retryUntil: Option<Time>,
    idempotencyScope: Option<string>,
    settledAmount: Option<Money>,
    correlation: Option<string>,
    reconciliationRequired: bool,
    conflictingOutcomes: seq<Outcome>,
    recoveryEvidence: seq<RecoveryEvidence>,
    resolutions: seq<Decision>)
  {
    predicate IsActive() {
      state.Active()
    }

    predicate ResponsePending() {
      pendingResponseAttempts != []
    }

    /** Whether this operation keeps unrelated intents from being reserved. */
    predicate Holds() {
      IsActive() || ResponsePending()
    }

    /** Whether discovery lists this operation as unresolved work. */
    predicate Unresolved() {
      IsActive() || reconciliationRequired || ResponsePending()
    }

    predicate ActiveRefund() {
      operationType.StartRefund? && IsActive()
    }

    /** The operation a refund cancellation names. */
    function Target(): Option<string> {
      if CANCELLATION_TARGET in parameters then Some(parameters[CANCELLATION_TARGET]) else None
    }

    /** `this` is a cancellation of the refund `other`. */
    predicate Cancels(other: OperationRecord) {
      && operationType.CancelRefund?
      && other.operationType.StartRefund?
      && Target() == Some(other.operationId)
    }

    function Key(): IdempotencyKey {
      IdempotencyKey(backend, paymentId, operationId)
    }
  }

  /** The parts of an observation that only a `PaymentObservation` carries. */
  datatype Correlated = Correlated(
    operationId: Option<string>,
    outcome: Option<Outcome>,
    cancellationScope: Option<OperationType>,
    deltaOnly: bool)

  /** A provider observation; `correlated` is `Some` exactly for a `PaymentObservation`. */
  datatype Update = Update(
    paymentEvent: Option<PaymentEvent>,
    fraudEvent: Option<FraudEvent>,
    paidAmount: Option<Money>,
    refundedAmount: Option<Money>,
    lockedAmount: Option<Money>,
    externalId: Option<string>,
    fraudMessage: Option<string>,
    providerEventId: Option<string>,
    providerData: Metadata,
    correlated: Option<Correlated>)
  {
    predicate DeltaOnly() {
      correlated.Some? && correlated.value.deltaOnly
    }

    function OutcomePart(): Option<Outcome> {
      if correlated.Some? then correlated.value.outcome else None
    }

    predicate ScopedRelease() {
      && correlated.Some?
      && correlated.value.cancellationScope == Some(ReleaseLock)
      && paymentEvent == Some(LockReleased)
    }
  }

  /** An update carrying one event and nothing else. */
  function EventUpdate(event: Option<PaymentEvent>): Update {
    Update(event, None, None, None, None, None, None, None, map[], None)
  }

  datatype OutcomeContent = OutcomeContent(
    operationId: string,
    cancellationScope: Option<OperationType>,
    deltaOnly: bool,
    outcome: Option<(OperationState, Option<Money>, string, bool, string)>)

  /** The allowlisted semantic content of an observation. Provider metadata is excluded, and
      an absent text reads as an empty one. */
  datatype Content = Content(
    paymentEvent: Option<PaymentEvent>,
    fraudEvent: Option<FraudEvent>,
    paidAmount: Option<Money>,
    refundedAmount: Option<Money>,
    lockedAmount: Option<Money>,
    externalId: string,
    fraudMessage: string,
    extension: Option<OutcomeContent>)

  function ContentOf(update: Update): Content {
    Content(
      update.paymentEvent, update.fraudEvent, update.paidAmount, update.refundedAmount, update.lockedAmount,
      update.externalId.GetOr(""), update.fraudMessage.GetOr(""),
      match update.correlated
      case None => None
      case Some(c) =>
        if c.operationId.None? && c.outcome.None? && c.cancellationScope.None? && !c.deltaOnly then None
        else Some(OutcomeContent(
                    c.operationId.GetOr(""), c.cancellationScope, c.deltaOnly,
                    match c.outcome
                    case None => None
                    case Some(o) => Some((o.state, o.settledAmount, o.correlation.GetOr(""),
                                          o.reconciliationRequired, o.externalId.GetOr(""))))))
  }

  datatype ConflictReason =
    | ConflictingIdentity | FinancialConstraints | UnresolvedDelta | AmbiguousCancellation
    | ConflictingExternalId | UncorrelatedOutcome | ConflictingDelta

  datatype ObservationConflict = ObservationConflict(
    eventIdentity: Option<string>,
    content: Content,
    reason: ConflictReason)

  datatype PaymentFacts = PaymentFacts(
    paymentId: string,
    amountRequired: Money,
    backend: string,
    capturedFunds: Money,
    refundedFunds: Money,
    remainingAuthorization: Money,
    status: PaymentStatus,
    externalId: Option<string>,
    fraudStatus: FraudStatus,
    fraudMessage: string,
    reconciliationRequired: bool,
    providerData: Metadata,
    observationConflicts: seq<ObservationConflict>)

  /** Trusted evidence that one observation was applied; the digest stands for its content. */
  datatype ReplayRecord = ReplayRecord(
    paymentId: string,
    backend: string,
    eventIdentity: string,
    contentDigest: Content)
  {
    function ScopedIdentity(): (string, string, string) {
      (paymentId, backend, eventIdentity)
    }
  }

  datatype ObservationPlan = ObservationPlan(
    facts: PaymentFacts,
    replayRecord: Option<ReplayRecord>,
    applied: bool,
    operations: seq<OperationRecord>)

  datatype ReservationPlan = ReservationPlan(operation: OperationRecord, created: bool, facts: PaymentFacts)

  datatype SubmissionPlan = SubmissionPlan(operation: OperationRecord, granted: bool)

  datatype OutcomePlan = OutcomePlan(
    operation: OperationRecord,
    facts: PaymentFacts,
    relatedOperations: seq<OperationRecord>)

  function Max(a: Money, b: Money): Money {
    if a >= b then a else b
  }

  function Min(a: Money, b: Money): Money {
    if a <= b then a else b
  }
}
