/** The pure planning rules of durable money operations. Each planner takes the payment's current
    facts and history together with new evidence or a new intent, and returns the records that
    must be committed together, or an error that commits nothing. */
module Rules {
  import opened Wrappers
  import opened Records
  import opened StateEngine
  import opened RefundTotal

  function ViewOf(facts: PaymentFacts): View {
    View(facts.amountRequired, facts.capturedFunds, facts.refundedFunds, facts.remainingAuthorization,
         facts.status, facts.externalId, facts.fraudStatus, facts.fraudMessage, facts.providerData)
  }

  /** The facts read back from a view; what the engine does not read is carried through. */
  function FactsOf(v: View, facts: PaymentFacts): PaymentFacts {
    facts.(amountRequired := v.amountRequired,
           capturedFunds := v.amountPaid,
           refundedFunds := v.amountRefunded,
           remainingAuthorization := v.amountLocked,
           status := v.status,
           externalId := v.externalId,
           fraudStatus := v.fraudStatus,
           fraudMessage := v.fraudMessage,
           providerData := v.providerData)
  }

  predicate FactsBounded(facts: PaymentFacts) {
    Bounded(ViewOf(facts))
  }

  // ---- applying an update to facts ----

  function CaptureClaim(paid: Money): Update {
    EventUpdate(Some(PaymentCaptured)).(paidAmount := Some(paid))
  }

  function RefundClaim(refunded: Money): Update {
    EventUpdate(Some(RefundConfirmed)).(refundedAmount := Some(refunded))
  }

  /** An update that states less captured money than recorded loses its lock claim. */
  function WithoutStaleHold(facts: PaymentFacts, update: Update): Update {
    if update.paidAmount.Some? && update.paidAmount.value < facts.capturedFunds then
      update.(lockedAmount := None,
              paymentEvent := if update.paymentEvent == Some(LockedEvent) then None else update.paymentEvent)
    else update
  }

  /** The capture total of a snapshot is applied before everything else. */
  function ApplyCaptureTotal(v: View, update: Update): Result<View, Error> {
    if update.paidAmount.Some? then ApplyUpdate(v, CaptureClaim(update.paidAmount.value)) else Ok(v)
  }

  /** The refund total is applied when it exceeds the recorded one, or when the event asks for it. */
  function ApplyRefundTotal(v: View, update: Update): Result<View, Error> {
    if update.refundedAmount.Some?
       && (update.refundedAmount.value > v.amountRefunded || update.paymentEvent == Some(RefundConfirmed))
    then ApplyUpdate(v, RefundClaim(update.refundedAmount.value))
    else Ok(v)
  }

  /** The event still to be applied after the money totals. */
  function RemainingEvent(v: View, update: Update): Option<PaymentEvent> {
    if update.paidAmount.Some? && update.paymentEvent == Some(PaymentCaptured) then None
    else if update.refundedAmount.Some? && update.paymentEvent == Some(RefundConfirmed) then None
    else if update.ScopedRelease() && v.amountLocked == 0.0 then None
    else update.paymentEvent
  }

  function ApplyToView(v: View, update: Update): Result<View, Error> {
    var captured :- ApplyCaptureTotal(v, update);
    var refunded :- ApplyRefundTotal(captured, update);
    ApplyUpdate(refunded, update.(providerEventId := None,
                                  paymentEvent := RemainingEvent(refunded, update),
                                  paidAmount := None,
                                  refundedAmount := None))
  }

  function ApplyToFacts(facts: PaymentFacts, claimed: Update): Result<PaymentFacts, Error> {
    var update := WithoutStaleHold(facts, claimed);
    var v :- ApplyToView(ViewOf(facts), update);
    var result := FactsOf(v, facts);
    // Only a refund event may replace a `RefundStarted` status that was there before.
    var marked :=
      if facts.status.RefundStarted? && update.paymentEvent !in {Some(RefundConfirmed), Some(RefundCancelled)}
      then result.(status := RefundStarted)
      else result;
    Ok(if marked.capturedFunds > facts.capturedFunds && (facts.refundedFunds > 0.0 || facts.status.RefundStarted?)
       then marked.(reconciliationRequired := true)
       else marked)
  }

  function RetainObservation(facts: PaymentFacts, update: Update, reason: ConflictReason): PaymentFacts {
    var evidence := ObservationConflict(update.providerEventId, ContentOf(update), reason);
    facts.(reconciliationRequired := true,
           observationConflicts := if evidence in facts.observationConflicts then facts.observationConflicts
                                   else facts.observationConflicts + [evidence])
  }

  // ---- outcomes ----

  /** The shape an outcome must have, whatever operation it is about. */
  predicate OutcomeShape(o: Outcome) {
    && o.state.Evidence()
    && (o.settledAmount.Some? ==> o.state.Succeeded?)
  }

  /** The shape an outcome must have to be about `op`. */
  predicate OutcomeFits(op: OperationRecord, o: Outcome) {
    && OutcomeShape(o)
    && (o.externalId.Some? ==> op.operationType.Prepare?)
    && (o.settledAmount.Some? ==> op.operationType.Charge? || op.operationType.StartRefund?)
  }

  /** The amount an outcome claims for `op`: an omitted amount means the whole reservation. */
  function ClaimedAmount(op: OperationRecord, o: Outcome): Option<Money> {
    if o.settledAmount.None? then op.resolvedAmount else o.settledAmount
  }

  /** A finite settled amount outside the reservation is disputed, never applied. */
  predicate ImpossibleSettlement(op: OperationRecord, o: Outcome) {
    && o.state.Succeeded?
    && o.settledAmount.Some?
    && (o.settledAmount.value <= 0.0
        || (op.resolvedAmount.Some? && o.settledAmount.value > op.resolvedAmount.value))
  }

  /** The cumulative update a success establishes, from the totals at reservation. */
  function SettlementUpdate(op: OperationRecord, o: Outcome): Result<Update, Error> {
    match op.operationType
    case Prepare => Ok(EventUpdate(Some(PreparedEvent)).(externalId := o.externalId))
    case ReleaseLock => Ok(EventUpdate(Some(LockReleased)))
    case CancelRefund => Ok(EventUpdate(Some(RefundCancelled)))
    case _ =>
      var settled := ClaimedAmount(op, o);
      if settled.None? || settled.value <= 0.0 then Err(InvalidTransition)
      else if op.resolvedAmount.Some? && settled.value > op.resolvedAmount.value then Err(InvalidTransition)
      else if op.operationType.Charge? then Ok(CaptureClaim(op.startingCaptured + settled.value))
      else Ok(RefundClaim(op.startingRefunded + settled.value))
  }

  /** The other refunds of the payment in the retained history. */
  function OtherRefunds(op: OperationRecord, operations: seq<OperationRecord>): seq<OperationRecord> {
    if operations == [] then []
    else
      var r := operations[0];
      (if r.paymentId == op.paymentId && r.operationType.StartRefund? && r.operationId != op.operationId
       then [r] else [])
      + OtherRefunds(op, operations[1..])
  }

  /** The history of refunds in which `op` has succeeded for `settled`. */
  function RefundHistory(op: OperationRecord, settled: Money, operations: seq<OperationRecord>): seq<OperationRecord> {
    OtherRefunds(op, operations) + [op.(state := Succeeded, settledAmount := Some(settled))]
  }

  function ConfirmedRefundTotal(op: OperationRecord, settled: Money, operations: seq<OperationRecord>): Money {
    GreatestBound(RefundHistory(op, settled, operations))
  }

  predicate FinanciallyPossible(facts: PaymentFacts, update: Update) {
    var captured := Max(facts.capturedFunds, update.paidAmount.GetOr(0.0));
    var snapshot := update.paidAmount.GetOr(captured);
    && update.paidAmount.GetOr(0.0) >= 0.0
    && update.refundedAmount.GetOr(0.0) >= 0.0
    && update.lockedAmount.GetOr(0.0) >= 0.0
    && captured <= facts.amountRequired
    && (update.refundedAmount.Some? ==> update.refundedAmount.value <= captured)
    && (update.lockedAmount.Some? ==> 0.0 < update.lockedAmount.value <= facts.amountRequired - snapshot)
  }

  function RetainOutcome(conflicts: seq<Outcome>, o: Outcome): seq<Outcome> {
    if o in conflicts then conflicts else conflicts + [o]
  }

  function DisputedOutcome(facts: PaymentFacts, op: OperationRecord, o: Outcome): OutcomePlan {
    OutcomePlan(
      op.(reconciliationRequired := true, conflictingOutcomes := RetainOutcome(op.conflictingOutcomes, o)),
      facts.(reconciliationRequired := true),
      [])
  }

  predicate ConflictingHandles(facts: PaymentFacts, op: OperationRecord, o: Outcome) {
    || (op.correlation.Some? && o.correlation.Some? && op.correlation != o.correlation)
    || (facts.externalId.Some? && o.externalId.Some? && facts.externalId != o.externalId)
  }

  predicate ContradictoryTerminal(op: OperationRecord, o: Outcome) {
    && op.state.Terminal()
    && o.state.Terminal()
    && (op.state != o.state || (op.state.Succeeded? && ClaimedAmount(op, o) != op.settledAmount))
  }

  /** The operation with an outcome's handle, flags and disputes, before any state change. */
  function Annotated(facts: PaymentFacts, op: OperationRecord, o: Outcome): OperationRecord {
    var disputed := ConflictingHandles(facts, op, o) || ContradictoryTerminal(op, o);
    op.(correlation := if op.correlation.Some? then op.correlation else o.correlation,
        reconciliationRequired := op.reconciliationRequired || o.reconciliationRequired || disputed,
        conflictingOutcomes := if disputed then RetainOutcome(op.conflictingOutcomes, o) else op.conflictingOutcomes)
  }

  /** A successful cancellation of the refund `op` is in the history. */
  predicate CancellationSucceeded(op: OperationRecord, operations: seq<OperationRecord>) {
    exists c :: c in operations && c.operationType.CancelRefund? && c.state.Succeeded?
      && c.paymentId == op.paymentId && c.Target() == Some(op.operationId)
  }

  /** A refund that was cancelled may still turn out to have settled. */
  predicate CancelledRefundSettled(op: OperationRecord, o: Outcome, operations: seq<OperationRecord>) {
    && op.state.Rejected?
    && o.state.Succeeded?
    && op.operationType.StartRefund?
    && CancellationSucceeded(op, operations)
  }

  /** The first refund of the payment with the given identity. */
  function FindRefund(operations: seq<OperationRecord>, paymentId: string,
                      id: Option<string>): Option<OperationRecord> {
    if operations == [] then None
    else if Some(operations[0].operationId) == id && operations[0].operationType.StartRefund?
         && operations[0].paymentId == paymentId then Some(operations[0])
    else FindRefund(operations[1..], paymentId, id)
  }

  /** The update a success applies, and the related operation it completes. */
  function SettlementEffect(facts: PaymentFacts, op: OperationRecord, o: Outcome, operations: seq<OperationRecord>)
    : Result<(Update, seq<OperationRecord>), Error>
  {
    var update :- SettlementUpdate(op, o);
    match op.operationType
    case StartRefund =>
      Ok((update.(refundedAmount := Some(ConfirmedRefundTotal(op, ClaimedAmount(op, o).GetOr(0.0), operations))), []))
    case CancelRefund =>
      var target := FindRefund(operations, facts.paymentId, op.Target());
      if target.None? then Err(OperationConflict)
      else Ok((update.(paymentEvent := None),
               if target.value.IsActive() then [target.value.(state := Rejected)] else []))
    case ReleaseLock =>
      Ok((if facts.remainingAuthorization == 0.0 then update.(paymentEvent := None) else update, []))
    case Prepare =>
      Ok((if !facts.status.New? then update.(paymentEvent := None) else update, []))
    case Charge => Ok((update, []))
  }

  /** The last record in `changes` with the identity of `r`, or `r` itself. */
  function Replacement(changes: seq<OperationRecord>, r: OperationRecord): OperationRecord {
    if changes == [] then r
    else if changes[|changes| - 1].operationId == r.operationId then changes[|changes| - 1]
    else Replacement(changes[..|changes| - 1], r)
  }

  function Replaced(operations: seq<OperationRecord>, changes: seq<OperationRecord>): seq<OperationRecord> {
    seq(|operations|, i requires 0 <= i < |operations| => Replacement(changes, operations[i]))
  }

  predicate AnyActiveRefund(operations: seq<OperationRecord>) {
    exists i :: 0 <= i < |operations| && operations[i].ActiveRefund()
  }

  /** Refund operations re-project the status from the operations that remain. */
  function Reprojected(facts: PaymentFacts, recorded: OperationRecord, related: seq<OperationRecord>,
                       operations: seq<OperationRecord>): PaymentFacts {
    if recorded.operationType.StartRefund? || recorded.operationType.CancelRefund? then
      var current := Replaced(operations, [recorded] + related) + [recorded];
      facts.(status := ProjectStatus(ViewOf(facts), AnyActiveRefund(current), false))
    else facts
  }

  /** The state after an accepted outcome; a pending acceptance is never downgraded. */
  function NextState(current: OperationState, evidence: OperationState): OperationState {
    if current.ProviderPending? && evidence.Unknown? then current else evidence
  }

  function FinishOutcome(facts: PaymentFacts, recorded: OperationRecord, related: seq<OperationRecord>,
                         o: Outcome, operations: seq<OperationRecord>): OutcomePlan {
    var finished := recorded.(state := NextState(recorded.state, o.state));
    OutcomePlan(finished, Reprojected(facts, finished, related, operations), related)
  }

  function PlanEvidence(facts: PaymentFacts, op: OperationRecord, o: Outcome, operations: seq<OperationRecord>)
    : Result<OutcomePlan, Error>
  {
    if !OutcomeFits(op, o) then Err(InvalidTransition)
    else if ImpossibleSettlement(op, o) then Ok(DisputedOutcome(facts, op, o))
    else if o.state.Succeeded? && SettlementUpdate(op, o).Err? then Err(InvalidTransition)
    else
      var recorded := Annotated(facts, op, o);
      var flagged := facts.(reconciliationRequired := facts.reconciliationRequired || recorded.reconciliationRequired);
      if ConflictingHandles(facts, op, o) then Ok(OutcomePlan(recorded, flagged, []))
      else
        var known := if o.externalId.Some? then flagged.(externalId := o.externalId) else flagged;
        if op.state.Terminal() && !CancelledRefundSettled(op, o, operations) then Ok(OutcomePlan(recorded, known, []))
        else if !o.state.Succeeded? then Ok(FinishOutcome(known, recorded, [], o, operations))
        else
          var effect :- SettlementEffect(known, op, o, operations);
          if !FinanciallyPossible(known, effect.0) then Ok(DisputedOutcome(known, recorded, o))
          else
            var settled :- ApplyToFacts(known, effect.0);
            Ok(FinishOutcome(settled, recorded.(settledAmount := ClaimedAmount(op, o)), effect.1, o, operations))
  }

  function Without(attempts: seq<int>, attempt: int): seq<int> {
    if attempts == [] then []
    else (if attempts[0] != attempt then [attempts[0]] else []) + Without(attempts[1..], attempt)
  }

  /** Only a recorded response retires the response work of the attempt it names. */
  function PlanOutcome(facts: PaymentFacts, op: OperationRecord, o: Outcome, operations: seq<OperationRecord>,
                       responseAttempt: Option<int>): Result<OutcomePlan, Error>
  {
    if responseAttempt.Some? && !(0 < responseAttempt.value <= op.submissionAttempts) then Err(InvalidTransition)
    else
      var plan :- PlanEvidence(facts, op, o, operations);
      Ok(if responseAttempt.None? then plan
         else plan.(operation := plan.operation.(
                      pendingResponseAttempts :=
                        Without(plan.operation.pendingResponseAttempts, responseAttempt.value))))
  }

  // ---- observations ----

  predicate ObservationValid(u: Update) {
    && (u.paymentEvent == Some(LockedEvent) ==> u.lockedAmount.Some?)
    && match u.correlated
       case None => true
       case Some(c) =>
         && (c.cancellationScope.Some? ==>
               c.cancellationScope == Some(ReleaseLock) && u.paymentEvent == Some(LockReleased))
         && match c.outcome
            case None => c.operationId.None?
            case Some(o) => OutcomeShape(o)
  }

  /** An empty event identity is no identity. */
  function EventIdentity(u: Update): Option<string> {
    if u.providerEventId == Some("") then None else u.providerEventId
  }

  function ReplayFor(facts: PaymentFacts, u: Update): Option<ReplayRecord> {
    match EventIdentity(u)
    case None => None
    case Some(id) => Some(ReplayRecord(facts.paymentId, facts.backend, id, ContentOf(u)))
  }

  /** The first replay record with the given scoped identity. */
  function KnownReplay(log: seq<ReplayRecord>, record: ReplayRecord): Option<ReplayRecord> {
    if log == [] then None
    else if log[0].ScopedIdentity() == record.ScopedIdentity() then Some(log[0])
    else KnownReplay(log[1..], record)
  }

  /** Isolated increments claim exactly what the correlated operation settled. */
  predicate DeltaMatches(u: Update, op: OperationRecord, o: Outcome) {
    u.DeltaOnly() ==>
      && (u.paidAmount.Some? ==>
            o.state.Succeeded? && op.operationType.Charge? && u.paidAmount == ClaimedAmount(op, o))
      && (u.refundedAmount.Some? ==>
            o.state.Succeeded? && op.operationType.StartRefund? && u.refundedAmount == ClaimedAmount(op, o))
      && u.lockedAmount.None?
  }

  /** The part of an observation that is applied as aggregate evidence. A correlated outcome owns
      the lifecycle of its operation, and isolated increments never accumulate. */
  function AggregatePart(u: Update): Update {
    var labelled :=
      if u.OutcomePart().Some? && u.paymentEvent !in {Some(FailedEvent), Some(LockedEvent)}
      then u.(paymentEvent := None) else u;
    var totals :=
      if u.DeltaOnly() then
        u.(paidAmount := None, refundedAmount := None, lockedAmount := None,
           paymentEvent := if u.paymentEvent == Some(FailedEvent) then u.paymentEvent else None)
      else labelled;
    if u.paymentEvent in {Some(LockReleased), Some(RefundCancelled)} && !u.ScopedRelease()
    then totals.(paymentEvent := None) else totals
  }

  predicate ConflictingEnvelope(facts: PaymentFacts, aggregate: Update) {
    facts.externalId.Some? && aggregate.externalId.Some? && aggregate.externalId != facts.externalId
  }

  /** The facts with every ambiguity of the observation retained, and the update still to apply. */
  function Screened(facts: PaymentFacts, u: Update): (PaymentFacts, Update) {
    var aggregate := AggregatePart(u);
    var f0 := if u.DeltaOnly() && u.OutcomePart().None? then RetainObservation(facts, u, UnresolvedDelta) else facts;
    var f1 :=
      if u.paymentEvent in {Some(LockReleased), Some(RefundCancelled)}
         && !u.ScopedRelease() && u.OutcomePart().None?
      then RetainObservation(f0, u, AmbiguousCancellation) else f0;
    if ConflictingEnvelope(f1, aggregate)
    then (RetainObservation(f1, u, ConflictingExternalId), aggregate.(externalId := None))
    else (f1, aggregate)
  }

  predicate Candidate(facts: PaymentFacts, c: Correlated, o: Outcome, op: OperationRecord) {
    && op.paymentId == facts.paymentId
    && op.backend == facts.backend
    && (if c.operationId.Some? then c.operationId == Some(op.operationId)
        else o.correlation.Some? && op.correlation == o.correlation)
  }

  function Candidates(facts: PaymentFacts, c: Correlated, o: Outcome, operations: seq<OperationRecord>)
    : seq<OperationRecord>
  {
    if operations == [] then []
    else (if Candidate(facts, c, o, operations[0]) then [operations[0]] else [])
         + Candidates(facts, c, o, operations[1..])
  }

  /** The correlated part of an observation: at most one operation, named or found by its handle. */
  function ApplyCorrelated(facts: PaymentFacts, result: PaymentFacts, u: Update, operations: seq<OperationRecord>)
    : Result<(PaymentFacts, seq<OperationRecord>), Error>
  {
    if u.OutcomePart().None? then Ok((result, []))
    else
      var o := u.OutcomePart().value;
      var candidates := Candidates(facts, u.correlated.value, o, operations);
      if |candidates| != 1 then Ok((RetainObservation(result, u, UncorrelatedOutcome), []))
      else if !DeltaMatches(u, candidates[0], o) then Ok((RetainObservation(result, u, ConflictingDelta), []))
      else
        var plan :- PlanOutcome(result, candidates[0], o, operations, None);
        Ok((plan.facts, [plan.operation] + plan.relatedOperations))
  }

  /** A refund that is still active owns the status, whatever the money says. */
  function MarkedRefund(facts: PaymentFacts, operations: seq<OperationRecord>): PaymentFacts {
    if AnyActiveRefund(operations) then facts.(status := RefundStarted) else facts
  }

  /** The facts after the aggregate part of an observation, before its outcome. */
  function AggregateFacts(facts: PaymentFacts, u: Update): Result<PaymentFacts, Error> {
    ApplyToFacts(Screened(facts, u).0, Screened(facts, u).1)
  }

  /** An observation that is neither a replay nor impossible. */
  function PlanNewEvidence(facts: PaymentFacts, u: Update, record: Option<ReplayRecord>,
                           operations: seq<OperationRecord>)
    : Result<ObservationPlan, Error>
  {
    var applied :- AggregateFacts(facts, u);
    var correlated :- ApplyCorrelated(Screened(facts, u).0, applied, u, operations);
    Ok(ObservationPlan(MarkedRefund(correlated.0, Replaced(operations, correlated.1)), record, true, correlated.1))
  }

  function PlanObservation(facts: PaymentFacts, log: seq<ReplayRecord>, update: Option<Update>,
                           operations: seq<OperationRecord>): Result<ObservationPlan, Error>
  {
    if update.None? then Ok(ObservationPlan(facts, None, false, []))
    else
      var u := update.value;
      if !ObservationValid(u) then Err(InvalidTransition)
      else
        var record := ReplayFor(facts, u);
        var known := if record.None? then None else KnownReplay(log, record.value);
        if known.Some? then
          if known.value.contentDigest == record.value.contentDigest
          then Ok(ObservationPlan(facts, None, false, []))
          else Ok(ObservationPlan(RetainObservation(facts, u, ConflictingIdentity), None, false, []))
        else if !FinanciallyPossible(facts, u) then
          Ok(ObservationPlan(RetainObservation(facts, u, FinancialConstraints), None, false, []))
        else PlanNewEvidence(facts, u, record, operations)
  }

  // ---- reservations and submissions ----

  /** The concrete amount a new intent reserves against current facts. */
  function ResolveAmount(facts: PaymentFacts, intent: Intent): Result<Option<Money>, Error> {
    var v := ViewOf(facts);
    var requested := intent.request.amount;
    if !Bounded(v) then Err(InvalidTransition)
    else
      match intent.request.operationType
      case Prepare =>
        if requested.Some? || !facts.status.New? || facts.capturedFunds != 0.0 || facts.remainingAuthorization != 0.0
        then Err(InvalidTransition) else Ok(None)
      case CancelRefund => if requested.Some? then Err(InvalidTransition) else Ok(None)
      case ReleaseLock =>
        if facts.remainingAuthorization <= 0.0 || requested.GetOr(facts.remainingAuthorization) != facts.remainingAuthorization
        then Err(InvalidTransition) else Ok(Some(facts.remainingAuthorization))
      case Charge =>
        var amount := requested.GetOr(Capturable(v));
        if !CaptureEligible(v) || !(0.0 < amount <= Capturable(v)) then Err(InvalidTransition) else Ok(Some(amount))
      case StartRefund =>
        var amount := requested.GetOr(Refundable(v));
        if !(0.0 < amount <= Refundable(v)) then Err(InvalidTransition) else Ok(Some(amount))
  }

  /** The single exception to exclusive mutation: the pending refund a cancellation names. */
  predicate Excepted(r: OperationRecord, intent: Intent, target: Option<string>) {
    && intent.request.operationType.CancelRefund?
    && Some(r.operationId) == target
    && r.operationType.StartRefund?
    && r.state.ProviderPending?
  }

  predicate Blocks(r: OperationRecord, intent: Intent, target: Option<string>) {
    r.Holds() && r.operationId != intent.operationId && !Excepted(r, intent, target)
  }

  function IntentTarget(intent: Intent): Option<string> {
    if CANCELLATION_TARGET in intent.request.parameters
    then Some(intent.request.parameters[CANCELLATION_TARGET]) else None
  }

  /** The correlated, provider-pending refund a cancellation names. */
  function CancellableTarget(operations: seq<OperationRecord>, target: Option<string>): Option<OperationRecord> {
    if operations == [] then None
    else if Some(operations[0].operationId) == target && operations[0].operationType.StartRefund?
         && operations[0].state.ProviderPending? && operations[0].correlation.Some? then Some(operations[0])
    else CancellableTarget(operations[1..], target)
  }

  function LastSequence(operations: seq<OperationRecord>): int {
    if operations == [] then 0
    else
      var rest := LastSequence(operations[1..]);
      if |operations| == 1 || operations[0].reservationSequence > rest then operations[0].reservationSequence else rest
  }

  function IndexOf(operations: seq<OperationRecord>, operationId: string): (i: Option<nat>)
    ensures i.Some? ==> i.value < |operations| && operations[i.value].operationId == operationId
    ensures i.Some? ==> forall j :: 0 <= j < i.value ==> operations[j].operationId != operationId
    ensures i.None? ==> forall j :: 0 <= j < |operations| ==> operations[j].operationId != operationId
  {
    if operations == [] then None
    else if operations[0].operationId == operationId then Some(0)
    else
      var rest := IndexOf(operations[1..], operationId);
      if rest.None? then None else Some(rest.value + 1)
  }

  function NewRecord(facts: PaymentFacts, operations: seq<OperationRecord>, intent: Intent,
                     parameters: Metadata, amount: Option<Money>): OperationRecord {
    OperationRecord(
      facts.paymentId, intent.operationId, intent.request.operationType, Reserved, amount, intent.request,
      facts.capturedFunds, facts.refundedFunds, facts.remainingAuthorization, parameters, facts.backend,
      LastSequence(operations) + 1, None, 0, [], None, None, None, None, false, [], [], [])
  }

  function PlanReservation(facts: PaymentFacts, operations: seq<OperationRecord>, intent: Intent)
    : Result<ReservationPlan, Error>
  {
    var existing := IndexOf(operations, intent.operationId);
    if existing.Some? then
      if operations[existing.value].parametersDigest != intent.request then Err(OperationConflict)
      else Ok(ReservationPlan(operations[existing.value], false, facts))
    else if facts.reconciliationRequired || exists r :: r in operations && r.reconciliationRequired then
      Err(ReconciliationBlocked)
    else
      var cancelling := intent.request.operationType.CancelRefund?;
      var target := if cancelling then CancellableTarget(operations, IntentTarget(intent)) else None;
      if cancelling && target.None? then Err(OperationConflict)
      else if exists r :: r in operations && Blocks(r, intent, IntentTarget(intent)) then Err(OperationConflict)
      else
        var parameters :=
          if cancelling then intent.request.parameters[CANCELLATION_CORRELATION := target.value.correlation.GetOr("")]
          else intent.request.parameters;
        var amount :- ResolveAmount(facts, intent);
        Ok(ReservationPlan(
             NewRecord(facts, operations, intent, parameters, amount), true,
             if intent.request.operationType.StartRefund? then facts.(status := RefundStarted) else facts))
  }

  /** Compare-and-set of the submission counter. The first claim freezes time, window and scope. */
  function PlanSubmission(facts: PaymentFacts, op: OperationRecord, expectedAttempt: int, now: Time,
                          retryUntil: Option<Time>, scope: Option<string>): Result<SubmissionPlan, Error>
  {
    if op.paymentId != facts.paymentId then Err(OperationConflict)
    else if facts.reconciliationRequired || op.reconciliationRequired then Err(ReconciliationBlocked)
    else if expectedAttempt < 0 then Err(InvalidTransition)
    else if op.submissionAttempts != expectedAttempt then Ok(SubmissionPlan(op, false))
    else if op.submissionAttempts == 0 then
      if !op.state.Reserved? then Ok(SubmissionPlan(op, false))
      else Ok(SubmissionPlan(
                op.(state := Submitting, submittedAt := Some(now), submissionAttempts := 1,
                    pendingResponseAttempts := [1], retryUntil := retryUntil, idempotencyScope := scope),
                true))
    else if !(op.state.Unknown? || op.state.Submitting?) || op.retryUntil.None? || now >= op.retryUntil.value then
      Ok(SubmissionPlan(op, false))
    else Ok(SubmissionPlan(
              op.(state := Submitting, submissionAttempts := op.submissionAttempts + 1,
                  pendingResponseAttempts := op.pendingResponseAttempts + [op.submissionAttempts + 1]),
              true))
  }

  /** Response claims are retained, never applied as settlement. */
  function PlanFailure(op: OperationRecord, evidence: RecoveryEvidence): OperationRecord {
    op.(reconciliationRequired := true,
        recoveryEvidence := if evidence in op.recoveryEvidence then op.recoveryEvidence
                            else op.recoveryEvidence + [evidence])
  }
}
