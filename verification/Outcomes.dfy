/** What recording an outcome does, completely: every field of the operation, of the facts and of the rest of the
    history, for every well-formed outcome in a sound history. */
module Outcomes {
  import opened Wrappers
  import opened Records
  import opened StateEngine
  import opened RefundTotal
  import opened Rules
  import opened Resolution
  import opened Effects
  import opened System
  import opened History
  import opened Steps
  import opened Decisions
  import opened Settlements
  import opened Recording
  import opened Evidence
  import opened Marker
  import opened Lifecycle
  import opened Verdicts

  // ---- an outcome, as its recorder sees it ----

  /** Evidence about `op`: a state a provider reports, an amount only for a confirmed charge or refund, and a
      payment handle only from preparation. */
  predicate WellFormed(op: OperationRecord, o: Outcome) {
    && o.state in {Succeeded, Rejected, ProviderPending, Unknown}
    && (o.settledAmount.Some? ==> o.state == Succeeded && op.operationType in {Charge, StartRefund})
    && (o.externalId.Some? ==> op.operationType == Prepare)
  }

  function Amount(op: OperationRecord, o: Outcome): Option<Money> {
    match o.settledAmount
    case Some(stated) => Some(stated)
    case None => op.resolvedAmount
  }

  /** A stated amount that was never reserved. */
  predicate Outside(op: OperationRecord, o: Outcome) {
    && o.settledAmount.Some?
    && !(0.0 < o.settledAmount.value <= op.resolvedAmount.GetOr(o.settledAmount.value))
  }

  ghost predicate CancelledBefore(op: OperationRecord, operations: seq<OperationRecord>) {
    exists c :: c in operations && c.Cancels(op) && c.state == Succeeded && c.paymentId == op.paymentId
  }

  /** An operation still takes evidence while it is open, or when it is a cancelled refund that settled. */
  ghost predicate Open(op: OperationRecord, o: Outcome, operations: seq<OperationRecord>) {
    op.IsActive() || (op.state == Rejected && o.state == Succeeded && CancelledBefore(op, operations))
  }

  /** What the payment will have returned in all once this refund has. */
  function ReturnedInAll(op: OperationRecord, o: Outcome, operations: seq<OperationRecord>): Money {
    ConfirmedRefundTotal(op, Amount(op, o).GetOr(0.0), operations)
  }

  /** A refund cannot return more than was captured. */
  ghost predicate NoRoom(f: PaymentFacts, op: OperationRecord, o: Outcome, operations: seq<OperationRecord>) {
    && op.operationType == StartRefund
    && o.state == Succeeded
    && f.capturedFunds < ReturnedInAll(op, o, operations)
  }

  /** The outcome is about this operation, within its reservation, and the operation is open to it. */
  ghost predicate Admissible(f: PaymentFacts, op: OperationRecord, o: Outcome, operations: seq<OperationRecord>) {
    HandlesAgree(f, op, o) && !Outside(op, o) && Open(op, o, operations)
  }

  /** The outcome moves the operation, and the money if it is a success. */
  ghost predicate Takes(f: PaymentFacts, op: OperationRecord, o: Outcome, operations: seq<OperationRecord>) {
    Admissible(f, op, o, operations) && !NoRoom(f, op, o, operations)
  }

  /** The outcome contradicts its handles, its reservation, an established end, or the money. */
  ghost predicate Contradicts(f: PaymentFacts, op: OperationRecord, o: Outcome, operations: seq<OperationRecord>) {
    || !HandlesAgree(f, op, o)
    || Outside(op, o)
    || (op.state.Terminal() && o.state.Terminal() && !AlreadyKnown(op, o))
    || (Admissible(f, op, o, operations) && NoRoom(f, op, o, operations))
  }

  // ---- what it leaves ----

  /** The operation flags itself when it was flagged, when the outcome asks for it, or when the outcome
      contradicts what is known; only a contradiction joins the disputes. */
  ghost function OperationAfter(f: PaymentFacts, op: OperationRecord, o: Outcome, operations: seq<OperationRecord>)
    : OperationRecord
  {
    var takes := Takes(f, op, o, operations);
    var contradicts := Contradicts(f, op, o, operations);
    op.(state := if !takes then op.state
                 else if op.state == ProviderPending && o.state == Unknown then ProviderPending
                 else o.state,
        settledAmount := if takes && o.state == Succeeded then Amount(op, o) else op.settledAmount,
        correlation := if op.correlation.Some? || Outside(op, o) then op.correlation else o.correlation,
        reconciliationRequired := op.reconciliationRequired || o.reconciliationRequired || contradicts,
        conflictingOutcomes := if contradicts then Added(op.conflictingOutcomes, o) else op.conflictingOutcomes)
  }

  /** The money of a confirmed effect, from the totals at its reservation; a status that follows it. */
  function ConfirmedFacts(f: PaymentFacts, op: OperationRecord, amount: Money, returned: Money): PaymentFacts {
    var returning := f.refundedFunds > 0.0 || f.status == RefundStarted;
    match op.operationType
    case Prepare => if f.status == New then f.(status := Prepared) else f
    case Charge =>
      var total := Max(f.capturedFunds, op.startingCaptured + amount);
      var g := f.(capturedFunds := total,
                  remainingAuthorization := Max(0.0, f.remainingAuthorization - (total - f.capturedFunds)),
                  reconciliationRequired := f.reconciliationRequired || (total > f.capturedFunds && returning));
      g.(status := if f.status == RefundStarted then RefundStarted else MoneyStatus(g))
    case ReleaseLock =>
      if f.remainingAuthorization == 0.0 then f
      else f.(remainingAuthorization := 0.0,
              status := if f.status == RefundStarted then RefundStarted
                        else if f.capturedFunds > 0.0 then MoneyStatus(f)
                        else Cancelled)
    case StartRefund => f.(refundedFunds := Max(f.refundedFunds, returned))
    case CancelRefund => f
  }

  /** The facts after an outcome. A refund or cancellation that moved shows whether a refund is still active. */
  ghost function FactsAfter(f: PaymentFacts, op: OperationRecord, o: Outcome, operations: seq<OperationRecord>,
                            active: bool): PaymentFacts
  {
    var takes := Takes(f, op, o, operations);
    var g := if takes && o.state == Succeeded
             then ConfirmedFacts(f, op, Amount(op, o).GetOr(0.0), ReturnedInAll(op, o, operations)) else f;
    g.(reconciliationRequired := g.reconciliationRequired || OperationAfter(f, op, o, operations).reconciliationRequired,
       externalId := if o.externalId.Some? && HandlesAgree(f, op, o) then o.externalId else f.externalId,
       status := if !takes || !RefundOperation(op) then g.status
                 else if active then RefundStarted
                 else MoneyStatus(g))
  }

  /** A confirmed cancellation ends the refund it names, if that is still active. */
  function OtherAfter(op: OperationRecord, o: Outcome, takes: bool, r: OperationRecord): OperationRecord {
    if takes && o.state == Succeeded && op.Cancels(r) && r.IsActive() then r.(state := Rejected) else r
  }

  // ---- the planner's own tests ----

  lemma SameTests(f: PaymentFacts, op: OperationRecord, o: Outcome, operations: seq<OperationRecord>)
    requires WellFormed(op, o)
    ensures OutcomeFits(op, o) && ClaimedAmount(op, o) == Amount(op, o)
    ensures ImpossibleSettlement(op, o) <==> Outside(op, o)
    ensures ConflictingHandles(f, op, o) <==> !HandlesAgree(f, op, o)
    ensures ContradictoryTerminal(op, o) <==> op.state.Terminal() && o.state.Terminal() && !AlreadyKnown(op, o)
    ensures Absorbs(f, op, o, operations) <==> !Admissible(f, op, o, operations)
  {
    assert op.state.Terminal() <==> !op.IsActive();
    assert CancelledRefundSettled(op, o, operations) <==>
      op.state == Rejected && o.state == Succeeded && CancelledBefore(op, operations) by {
      SameCancellations(op, operations);
    }
    hide CancellationSucceeded, CancelledBefore;
  }

  lemma SameCancellations(op: OperationRecord, operations: seq<OperationRecord>)
    ensures CancelledBefore(op, operations) <==> op.operationType.StartRefund? && CancellationSucceeded(op, operations)
  {
  }

  lemma FitsWhenWellFormed(op: OperationRecord, o: Outcome)
    ensures OutcomeFits(op, o) <==> WellFormed(op, o)
  {
  }

  // ---- confirmed effects ----

  /** `f` holds the money and the status of `s`; an outcome may already have set a flag or a handle. */
  ghost predicate MoneyOf(s: State, f: PaymentFacts) {
    && FactsBounded(f)
    && SameIdentity(s.facts, f)
    && SameMoney(s.facts, f)
    && f.status == s.facts.status
  }

  /** `op` is the record at `i`, perhaps reopened by a decision. */
  ghost predicate RecordAt(s: State, i: nat, op: OperationRecord) {
    && Sound(s)
    && i < |s.operations|
    && SameIntent(s.operations[i], op)
  }

  lemma ReturnedNonNegative(s: State, i: nat, op: OperationRecord, o: Outcome)
    requires RecordAt(s, i, op) && op.operationType.StartRefund?
    ensures 0.0 <= ReturnedInAll(op, o, s.operations)
  {
    hide GreatestBound;
    HistoryDistinct(s, i, op, Amount(op, o).GetOr(0.0));
    GreatestBoundAtLeast(RefundHistory(op, Amount(op, o).GetOr(0.0), s.operations));
  }

  lemma UpdateExists(s: State, i: nat, op: OperationRecord, o: Outcome)
    requires RecordAt(s, i, op) && WellFormed(op, o) && !Outside(op, o) && o.state == Succeeded
    ensures SettlementUpdate(op, o).Ok?
    ensures MovesMoney(op) ==> Amount(op, o).Some? && 0.0 < Amount(op, o).value <= op.resolvedAmount.value
    ensures SettlementUpdate(op, o).value == match op.operationType
      case Prepare => EventUpdate(Some(PreparedEvent)).(externalId := o.externalId)
      case ReleaseLock => EventUpdate(Some(LockReleased))
      case CancelRefund => EventUpdate(Some(RefundCancelled))
      case Charge => CaptureClaim(op.startingCaptured + Amount(op, o).value)
      case StartRefund => RefundClaim(op.startingRefunded + Amount(op, o).value)
  {
    assert RecordSound(s.facts, s.operations[i]);
    hide Sound;
  }

  lemma PrepareConfirmed(f: PaymentFacts, op: OperationRecord, id: Option<string>, amount: Money, returned: Money)
    requires FactsBounded(f) && op.operationType == Prepare && (id.Some? ==> id == f.externalId)
    ensures var u := EventUpdate(if f.status == New then Some(PreparedEvent) else None).(externalId := id);
      FinanciallyPossible(f, u) && ApplyToFacts(f, u) == Ok(ConfirmedFacts(f, op, amount, returned))
  {
    var u := EventUpdate(if f.status == New then Some(PreparedEvent) else None).(externalId := id);
    AppliedExactly(f, u);
    assert f.providerData + map[] == f.providerData;
  }

  lemma ReleaseConfirmed(f: PaymentFacts, op: OperationRecord, amount: Money, returned: Money)
    requires FactsBounded(f) && op.operationType == ReleaseLock
    ensures var u := EventUpdate(if f.remainingAuthorization == 0.0 then None else Some(LockReleased));
      FinanciallyPossible(f, u) && ApplyToFacts(f, u) == Ok(ConfirmedFacts(f, op, amount, returned))
  {
    var u := EventUpdate(if f.remainingAuthorization == 0.0 then None else Some(LockReleased));
    AppliedExactly(f, u);
    assert f.providerData + map[] == f.providerData;
  }

  lemma CancelConfirmed(f: PaymentFacts)
    requires FactsBounded(f)
    ensures var u := EventUpdate(None); FinanciallyPossible(f, u) && ApplyToFacts(f, u) == Ok(f)
  {
    AppliedExactly(f, EventUpdate(None));
    assert f.providerData + map[] == f.providerData;
  }

  lemma ChargeConfirmed(f: PaymentFacts, op: OperationRecord, amount: Money, returned: Money)
    requires FactsBounded(f) && op.operationType == Charge && 0.0 <= op.startingCaptured && 0.0 < amount
    requires op.startingCaptured + amount <= f.amountRequired
    ensures var u := CaptureClaim(op.startingCaptured + amount);
      FinanciallyPossible(f, u) && ApplyToFacts(f, u) == Ok(ConfirmedFacts(f, op, amount, returned))
  {
    var u := CaptureClaim(op.startingCaptured + amount);
    AppliedExactly(f, u);
    assert f.providerData + map[] == f.providerData;
  }

  /** The status is projected again from the history right after. */
  lemma RefundConfirmedTotal(f: PaymentFacts, op: OperationRecord, total: Money)
    requires FactsBounded(f) && op.operationType == StartRefund && 0.0 <= total && 0.0 < f.capturedFunds
    ensures var u := RefundClaim(total);
      && (FinanciallyPossible(f, u) <==> total <= f.capturedFunds)
      && (FinanciallyPossible(f, u) ==>
            && ApplyToFacts(f, u).Ok?
            && ApplyToFacts(f, u).value == ConfirmedFacts(f, op, 0.0, total).(status := ApplyToFacts(f, u).value.status))
  {
    var u := RefundClaim(total);
    if FinanciallyPossible(f, u) {
      AppliedExactly(f, u);
      assert f.providerData + map[] == f.providerData;
    }
  }

  /** The refund a retained cancellation names is in the history, once. */
  lemma NamedRefund(s: State, i: nat, op: OperationRecord) returns (k: nat)
    requires RecordAt(s, i, op) && op.operationType == CancelRefund
    ensures k < |s.operations| && k != i && op.Cancels(s.operations[k])
    ensures FindRefund(s.operations, s.facts.paymentId, op.Target()) == Some(s.operations[k])
    ensures forall n :: 0 <= n < |s.operations| && op.Cancels(s.operations[n]) ==> n == k
  {
    var j :| 0 <= j < i && s.operations[i].Cancels(s.operations[j]);
    k := FindRefundFinds(s.operations, s.facts.paymentId, op.Target());
    assert RecordSound(s.facts, s.operations[j]);
    assert IsRefund(s.operations[j], s.facts.paymentId, op.Target());
  }

  /** The record that the confirmed cancellation `op` ends with it. */
  ghost predicate Completes(s: State, op: OperationRecord, o: Outcome, takes: bool, related: seq<OperationRecord>) {
    if takes && o.state == Succeeded && op.operationType == CancelRefund then
      exists k :: CompletesAt(s, op, k, related)
    else related == []
  }

  ghost predicate CompletesAt(s: State, op: OperationRecord, k: int, related: seq<OperationRecord>) {
    && 0 <= k < |s.operations|
    && op.Cancels(s.operations[k])
    && (forall n :: 0 <= n < |s.operations| && op.Cancels(s.operations[n]) ==> n == k)
    && related == if s.operations[k].IsActive() then [s.operations[k].(state := Rejected)] else []
  }

  /** A success that is admissible has an effect. It fits the money exactly when there is room, and then leaves
      `ConfirmedFacts`, but for the status that a refund projects again. */
  ghost predicate EffectIs(s: State, f: PaymentFacts, op: OperationRecord, o: Outcome) {
    var effect := SettlementEffect(f, op, o, s.operations);
    && effect.Ok?
    && (FinanciallyPossible(f, effect.value.0) <==> !NoRoom(f, op, o, s.operations))
    && (!NoRoom(f, op, o, s.operations) ==>
          && var applied := ApplyToFacts(f, effect.value.0);
          && var g := ConfirmedFacts(f, op, Amount(op, o).GetOr(0.0), ReturnedInAll(op, o, s.operations));
          && applied.Ok?
          && applied.value == (if op.operationType == StartRefund then g.(status := applied.value.status) else g)
          && Completes(s, op, o, true, effect.value.1))
  }

  lemma EffectExactly(s: State, i: nat, f: PaymentFacts, op: OperationRecord, o: Outcome)
    requires RecordAt(s, i, op) && MoneyOf(s, f) && WellFormed(op, o) && !Outside(op, o) && o.state == Succeeded
    requires o.externalId.Some? ==> o.externalId == f.externalId
    ensures EffectIs(s, f, op, o)
  {
    hide EffectIs, Sound, FactsBounded, Outside;
    if op.operationType == CancelRefund {
      CancelEffect(s, i, f, op, o);
    } else if op.operationType == StartRefund {
      RefundEffect(s, i, f, op, o);
    } else {
      PlainEffect(s, i, f, op, o);
    }
  }

  lemma PlainShape(f: PaymentFacts, op: OperationRecord, o: Outcome, operations: seq<OperationRecord>)
    requires SettlementUpdate(op, o).Ok? && !RefundOperation(op)
    ensures SettlementEffect(f, op, o, operations).Ok?
    ensures var update := SettlementUpdate(op, o).value;
      SettlementEffect(f, op, o, operations).value
      == (if (op.operationType == ReleaseLock && f.remainingAuthorization == 0.0)
             || (op.operationType == Prepare && f.status != New)
          then update.(paymentEvent := None) else update,
          [])
  {
    hide SettlementUpdate;
  }

  lemma PlainEffect(s: State, i: nat, f: PaymentFacts, op: OperationRecord, o: Outcome)
    requires RecordAt(s, i, op) && MoneyOf(s, f) && WellFormed(op, o) && !Outside(op, o) && o.state == Succeeded
    requires (o.externalId.Some? ==> o.externalId == f.externalId) && !RefundOperation(op)
    ensures EffectIs(s, f, op, o)
  {
    UpdateExists(s, i, op, o);
    PlainShape(f, op, o, s.operations);
    hide SettlementUpdate, SettlementEffect, ReturnedInAll, Sound, ApplyToFacts, FinanciallyPossible, FactsBounded,
      Outside, RecordSound, ConfirmedFacts, EffectIs;
    if op.operationType == Charge {
      ChargeFits(s, i, op, o);
    }
    PlainConfirmed(f, op, o, s.operations);
    EffectByUpdate(s, f, op, o, SettlementEffect(f, op, o, s.operations).value.0);
  }

  lemma PlainConfirmed(f: PaymentFacts, op: OperationRecord, o: Outcome, operations: seq<OperationRecord>)
    requires FactsBounded(f) && !RefundOperation(op) && SettlementEffect(f, op, o, operations).Ok?
    requires SettlementUpdate(op, o).Ok? && SettlementUpdate(op, o).value == match op.operationType
      case Prepare => EventUpdate(Some(PreparedEvent)).(externalId := o.externalId)
      case ReleaseLock => EventUpdate(Some(LockReleased))
      case _ => CaptureClaim(op.startingCaptured + Amount(op, o).GetOr(0.0))
    requires o.externalId.Some? ==> o.externalId == f.externalId
    requires op.operationType == Charge ==>
      && 0.0 <= op.startingCaptured && 0.0 < Amount(op, o).GetOr(0.0)
      && op.startingCaptured + Amount(op, o).GetOr(0.0) <= f.amountRequired
    ensures var u := SettlementEffect(f, op, o, operations).value.0;
      && FinanciallyPossible(f, u)
      && ApplyToFacts(f, u) == Ok(ConfirmedFacts(f, op, Amount(op, o).GetOr(0.0), ReturnedInAll(op, o, operations)))
  {
    PlainShape(f, op, o, operations);
    hide SettlementUpdate, SettlementEffect, ReturnedInAll, ApplyToFacts, FinanciallyPossible, FactsBounded,
      ConfirmedFacts;
    var amount, returned := Amount(op, o).GetOr(0.0), ReturnedInAll(op, o, operations);
    match op.operationType {
      case Prepare => PrepareConfirmed(f, op, o.externalId, amount, returned);
      case ReleaseLock => ReleaseConfirmed(f, op, amount, returned);
      case _ => ChargeConfirmed(f, op, amount, returned);
    }
  }

  lemma EffectByUpdate(s: State, f: PaymentFacts, op: OperationRecord, o: Outcome, u: Update)
    requires !RefundOperation(op) && SettlementEffect(f, op, o, s.operations) == Ok((u, [])) && FinanciallyPossible(f, u)
    requires ApplyToFacts(f, u) == Ok(ConfirmedFacts(f, op, Amount(op, o).GetOr(0.0), ReturnedInAll(op, o, s.operations)))
    ensures EffectIs(s, f, op, o)
  {
    hide SettlementEffect, ApplyToFacts, FinanciallyPossible, ConfirmedFacts, ReturnedInAll;
  }

  lemma CancelEffect(s: State, i: nat, f: PaymentFacts, op: OperationRecord, o: Outcome)
    requires RecordAt(s, i, op) && MoneyOf(s, f) && WellFormed(op, o) && !Outside(op, o) && o.state == Succeeded
    requires op.operationType == CancelRefund
    ensures EffectIs(s, f, op, o)
  {
    UpdateExists(s, i, op, o);
    CancelConfirmed(f);
    var k := NamedRefund(s, i, op);
    hide SettlementUpdate, ConfirmedRefundTotal, FindRefund, Sound, ApplyToFacts, FinanciallyPossible, FactsBounded,
      Outside, RecordSound;
    assert CompletesAt(s, op, k, SettlementEffect(f, op, o, s.operations).value.1);
  }

  lemma RefundEffect(s: State, i: nat, f: PaymentFacts, op: OperationRecord, o: Outcome)
    requires RecordAt(s, i, op) && MoneyOf(s, f) && WellFormed(op, o) && !Outside(op, o) && o.state == Succeeded
    requires op.operationType == StartRefund
    ensures EffectIs(s, f, op, o)
  {
    UpdateExists(s, i, op, o);
    CapturedWhenRefunding(s, i);
    ReturnedNonNegative(s, i, op, o);
    RefundConfirmedTotal(f, op, ReturnedInAll(op, o, s.operations));
    hide SettlementUpdate, ConfirmedRefundTotal, FindRefund, Sound, ApplyToFacts, FinanciallyPossible, FactsBounded,
      Outside, RecordSound;
    assert SettlementEffect(f, op, o, s.operations).value.0 == RefundClaim(ReturnedInAll(op, o, s.operations));
  }

  /** What was reserved for capture fits the required amount. */
  lemma ChargeFits(s: State, i: nat, op: OperationRecord, o: Outcome)
    requires RecordAt(s, i, op) && op.operationType == Charge
    requires Amount(op, o).Some? && 0.0 < Amount(op, o).value <= op.resolvedAmount.GetOr(0.0)
    ensures 0.0 <= op.startingCaptured && op.startingCaptured + Amount(op, o).value <= s.facts.amountRequired
  {
    assert RecordSound(s.facts, s.operations[i]);
    hide Sound;
  }

  // ---- the plan ----

  /** The planner's result for any well-formed outcome. */
  ghost predicate PlannedAs(s: State, op: OperationRecord, o: Outcome, plan: OutcomePlan) {
    var seen := Replaced(s.operations, [plan.operation] + plan.relatedOperations) + [plan.operation];
    && plan.operation == OperationAfter(s.facts, op, o, s.operations)
    && plan.facts == FactsAfter(s.facts, op, o, s.operations, AnyActiveRefund(seen))
    && Completes(s, op, o, Takes(s.facts, op, o, s.operations), plan.relatedOperations)
  }

  lemma PlannedInadmissible(s: State, i: nat, op: OperationRecord, o: Outcome)
    requires RecordAt(s, i, op) && WellFormed(op, o) && !Admissible(s.facts, op, o, s.operations)
    ensures PlanEvidence(s.facts, op, o, s.operations).Ok?
    ensures PlannedAs(s, op, o, PlanEvidence(s.facts, op, o, s.operations).value)
  {
    SameTests(s.facts, op, o, s.operations);
    if o.state == Succeeded && !Outside(op, o) {
      UpdateExists(s, i, op, o);
    }
    hide SettlementEffect, SettlementUpdate, FinishOutcome, CancellationSucceeded, CancelledBefore, Sound, Outside,
      ImpossibleSettlement, OutcomeFits, HandlesAgree, ConflictingHandles, ContradictoryTerminal, AlreadyKnown,
      ConfirmedRefundTotal, Replaced, AnyActiveRefund, NoRoom, Admissible, WellFormed;
  }

  lemma FinishedAs(f: PaymentFacts, recorded: OperationRecord, related: seq<OperationRecord>, o: Outcome,
                   operations: seq<OperationRecord>)
    requires FactsBounded(f) && (RefundOperation(recorded) ==> 0.0 < f.capturedFunds)
    ensures var plan := FinishOutcome(f, recorded, related, o, operations);
      var active := AnyActiveRefund(Replaced(operations, [plan.operation] + related) + [plan.operation]);
      && plan.relatedOperations == related
      && plan.operation == recorded.(state := if recorded.state == ProviderPending && o.state == Unknown
                                              then ProviderPending else o.state)
      && plan.facts == if !RefundOperation(recorded) then f
                       else f.(status := if active then RefundStarted else MoneyStatus(f))
  {
    hide Replaced, AnyActiveRefund;
  }

  lemma PlannedUnsettled(s: State, i: nat, op: OperationRecord, o: Outcome)
    requires RecordAt(s, i, op) && WellFormed(op, o) && Admissible(s.facts, op, o, s.operations) && o.state != Succeeded
    ensures PlanEvidence(s.facts, op, o, s.operations).Ok?
    ensures PlannedAs(s, op, o, PlanEvidence(s.facts, op, o, s.operations).value)
  {
    SameTests(s.facts, op, o, s.operations);
    RefundingIsCaptured(s, i, op);
    var known := Known(s.facts, op, o);
    FinishedAs(known, Annotated(s.facts, op, o), [], o, s.operations);
    hide SettlementEffect, SettlementUpdate, FinishOutcome, CancellationSucceeded, CancelledBefore, Sound, Outside,
      ImpossibleSettlement, OutcomeFits, HandlesAgree, ConflictingHandles, ContradictoryTerminal, AlreadyKnown,
      ConfirmedRefundTotal, Replaced, AnyActiveRefund, WellFormed;
  }

  lemma RefundingIsCaptured(s: State, i: nat, op: OperationRecord)
    requires RecordAt(s, i, op)
    ensures FactsBounded(s.facts) && (RefundOperation(op) ==> 0.0 < s.facts.capturedFunds)
  {
    if RefundOperation(op) {
      RefundOperationCaptured(s, i);
    }
  }

  lemma KnownMoney(s: State, op: OperationRecord, o: Outcome)
    requires FactsBounded(s.facts)
    ensures MoneyOf(s, Known(s.facts, op, o))
    ensures o.externalId.Some? ==> Known(s.facts, op, o).externalId == o.externalId
  {
    hide Annotated;
  }

  /** A success, once its effect is known. */
  lemma PlannedBySettling(s: State, i: nat, op: OperationRecord, o: Outcome)
    requires RecordAt(s, i, op) && WellFormed(op, o) && Admissible(s.facts, op, o, s.operations) && o.state == Succeeded
    ensures var known := Known(s.facts, op, o);
      var recorded := Annotated(s.facts, op, o);
      var effect := SettlementEffect(known, op, o, s.operations);
      && EffectIs(s, known, op, o)
      && PlanEvidence(s.facts, op, o, s.operations)
         == Ok(if NoRoom(s.facts, op, o, s.operations) then DisputedOutcome(known, recorded, o)
               else FinishOutcome(ApplyToFacts(known, effect.value.0).value, recorded.(settledAmount := Amount(op, o)),
                                  effect.value.1, o, s.operations))
  {
    SameTests(s.facts, op, o, s.operations);
    RefundingIsCaptured(s, i, op);
    KnownMoney(s, op, o);
    EffectExactly(s, i, Known(s.facts, op, o), op, o);
    UpdateExists(s, i, op, o);
    hide SettlementEffect, SettlementUpdate, FinishOutcome, CancellationSucceeded, CancelledBefore, Sound, Outside,
      ImpossibleSettlement, OutcomeFits, HandlesAgree, ConflictingHandles, ContradictoryTerminal, AlreadyKnown,
      ConfirmedRefundTotal, WellFormed, ApplyToFacts, FinanciallyPossible, DisputedOutcome, ConfirmedFacts, RecordSound,
      Completes, FactsBounded;
  }

  lemma PlannedSettled(s: State, i: nat, op: OperationRecord, o: Outcome)
    requires RecordAt(s, i, op) && WellFormed(op, o) && Admissible(s.facts, op, o, s.operations) && o.state == Succeeded
    ensures PlanEvidence(s.facts, op, o, s.operations).Ok?
    ensures PlannedAs(s, op, o, PlanEvidence(s.facts, op, o, s.operations).value)
  {
    hide PlanEvidence, PlannedAs, Admissible, WellFormed, NoRoom, RecordAt;
    PlannedBySettling(s, i, op, o);
    if NoRoom(s.facts, op, o, s.operations) {
      PlannedDisputed(s, i, op, o);
    } else {
      PlannedConfirmed(s, i, op, o);
    }
  }

  lemma PlannedDisputed(s: State, i: nat, op: OperationRecord, o: Outcome)
    requires RecordAt(s, i, op) && WellFormed(op, o) && Admissible(s.facts, op, o, s.operations) && o.state == Succeeded
    requires NoRoom(s.facts, op, o, s.operations)
    ensures PlannedAs(s, op, o, DisputedOutcome(Known(s.facts, op, o), Annotated(s.facts, op, o), o))
  {
    SameTests(s.facts, op, o, s.operations);
    hide CancellationSucceeded, CancelledBefore, Sound, Outside, ImpossibleSettlement, OutcomeFits, HandlesAgree,
      ConflictingHandles, ContradictoryTerminal, AlreadyKnown, NoRoom, Replaced, AnyActiveRefund, RecordSound,
      ConfirmedFacts, WellFormed, Open;
  }

  lemma PlannedConfirmed(s: State, i: nat, op: OperationRecord, o: Outcome)
    requires RecordAt(s, i, op) && WellFormed(op, o) && Admissible(s.facts, op, o, s.operations) && o.state == Succeeded
    requires !NoRoom(s.facts, op, o, s.operations) && EffectIs(s, Known(s.facts, op, o), op, o)
    ensures var known := Known(s.facts, op, o);
      var effect := SettlementEffect(known, op, o, s.operations).value;
      PlannedAs(s, op, o, FinishOutcome(ApplyToFacts(known, effect.0).value,
                                        Annotated(s.facts, op, o).(settledAmount := Amount(op, o)), effect.1, o, s.operations))
  {
    SameTests(s.facts, op, o, s.operations);
    RefundingIsCaptured(s, i, op);
    var known := Known(s.facts, op, o);
    var effect := SettlementEffect(known, op, o, s.operations).value;
    var g := ApplyToFacts(known, effect.0).value;
    ConfirmedBounded(known, effect.0);
    FinishedAs(g, Annotated(s.facts, op, o).(settledAmount := Amount(op, o)), effect.1, o, s.operations);
    FlagsCommute(s.facts, known, op, Amount(op, o).GetOr(0.0), ReturnedInAll(op, o, s.operations));
    TakenRecord(s.facts, op, o, s.operations);
    hide OperationAfter, Annotated, Contradicts, SettlementEffect, FinishOutcome, CancellationSucceeded,
      CancelledBefore, Sound, Outside, ImpossibleSettlement,
      OutcomeFits, HandlesAgree, ConflictingHandles, ContradictoryTerminal, AlreadyKnown, NoRoom, ReturnedInAll,
      WellFormed, ApplyToFacts, FinanciallyPossible, Replaced, AnyActiveRefund, RecordSound, ConfirmedFacts, Open,
      Completes, FactsBounded, MoneyStatus;
    MoneyStatusIgnores(g, FactsAfter(s.facts, op, o, s.operations, true));
  }

  lemma TakenRecord(f: PaymentFacts, op: OperationRecord, o: Outcome, operations: seq<OperationRecord>)
    requires WellFormed(op, o) && Takes(f, op, o, operations)
    ensures var recorded := Annotated(f, op, o);
      && recorded.operationType == op.operationType && recorded.state == op.state
      && OperationAfter(f, op, o, operations)
         == recorded.(state := if op.state == ProviderPending && o.state == Unknown then ProviderPending else o.state,
                      settledAmount := if o.state == Succeeded then Amount(op, o) else op.settledAmount)
  {
    SameTests(f, op, o, operations);
    hide CancelledBefore, Outside, ImpossibleSettlement, HandlesAgree, ConflictingHandles, ContradictoryTerminal,
      AlreadyKnown, NoRoom, Open, WellFormed;
  }

  /** A confirmed effect reads neither the flag nor the handle. */
  lemma FlagsCommute(f: PaymentFacts, g: PaymentFacts, op: OperationRecord, amount: Money, returned: Money)
    requires g == f.(reconciliationRequired := g.reconciliationRequired, externalId := g.externalId)
    requires f.reconciliationRequired ==> g.reconciliationRequired
    ensures var a, b := ConfirmedFacts(f, op, amount, returned), ConfirmedFacts(g, op, amount, returned);
      b == a.(reconciliationRequired := a.reconciliationRequired || g.reconciliationRequired, externalId := g.externalId)
  {
  }

  lemma MoneyStatusIgnores(f: PaymentFacts, g: PaymentFacts)
    requires SameMoney(f, g) && f.amountRequired == g.amountRequired
    ensures MoneyStatus(f) == MoneyStatus(g)
  {
  }

  lemma ConfirmedBounded(f: PaymentFacts, u: Update)
    requires ApplyToFacts(f, u).Ok?
    ensures FactsBounded(ApplyToFacts(f, u).value)
    ensures f.capturedFunds <= ApplyToFacts(f, u).value.capturedFunds
  {
    AppliedFacts(f, u);
  }

  /** In a sound history the planner accepts every well-formed outcome and plans exactly this. */
  lemma PlannedExactly(s: State, i: nat, op: OperationRecord, o: Outcome)
    requires RecordAt(s, i, op)
    ensures PlanEvidence(s.facts, op, o, s.operations).Ok? <==> WellFormed(op, o)
    ensures WellFormed(op, o) ==> PlannedAs(s, op, o, PlanEvidence(s.facts, op, o, s.operations).value)
  {
    hide PlanEvidence, PlannedAs, Admissible, WellFormed, RecordAt;
    FitsWhenWellFormed(op, o);
    if !WellFormed(op, o) {
      RefusedWhenUnfit(s.facts, op, o, s.operations);
    } else if !Admissible(s.facts, op, o, s.operations) {
      PlannedInadmissible(s, i, op, o);
    } else if o.state == Succeeded {
      PlannedSettled(s, i, op, o);
    } else {
      PlannedUnsettled(s, i, op, o);
    }
  }

  // ---- the commit ----

  /** Where the plan's records end up. */
  lemma CommittedRecords(s: State, i: nat, op: OperationRecord, o: Outcome, takes: bool, final: OperationRecord,
                         related: seq<OperationRecord>)
    requires Sound(s) && i < |s.operations| && SameIntent(s.operations[i], op)
    requires final.operationId == op.operationId && Completes(s, op, o, takes, related)
    ensures var after := Replaced(s.operations, [final] + related);
      && |after| == |s.operations|
      && after[i] == final
      && forall n :: 0 <= n < |s.operations| && n != i ==> after[n] == OtherAfter(op, o, takes, s.operations[n])
  {
    hide Forward, RecordSound;
    var after := Replaced(s.operations, [final] + related);
    assert |after| == |s.operations|;
    forall n | 0 <= n < |s.operations|
      ensures after[n] == if n == i then final else OtherAfter(op, o, takes, s.operations[n])
    {
      ReplacedAt(s.operations, final, related, n);
      assert n != i ==> s.operations[n].operationId != s.operations[i].operationId;
      if takes && o.state == Succeeded && op.operationType == CancelRefund {
        var k :| CompletesAt(s, op, k, related);
        assert n != k ==> s.operations[n].operationId != s.operations[k].operationId;
      }
    }
  }

  /** The planner's view of the history shows an active refund exactly when the committed history does. */
  lemma SeenIsCommitted(s: State, i: nat, op: OperationRecord, o: Outcome, takes: bool, after: OperationRecord,
                        final: OperationRecord, related: seq<OperationRecord>)
    requires Sound(s) && i < |s.operations| && SameIntent(s.operations[i], op) && Completes(s, op, o, takes, related)
    requires after.operationId == op.operationId && final.operationId == op.operationId
    requires after.ActiveRefund() == final.ActiveRefund()
    ensures AnyActiveRefund(Replaced(s.operations, [after] + related) + [after])
       <==> AnyActiveRefund(Replaced(s.operations, [final] + related))
  {
    CommittedRecords(s, i, op, o, takes, after, related);
    CommittedRecords(s, i, op, o, takes, final, related);
    hide Sound, Replaced, Completes, OtherAfter;
    var xs, ys := Replaced(s.operations, [after] + related), Replaced(s.operations, [final] + related);
    var seen := xs + [after];
    forall n | 0 <= n < |xs|
      ensures xs[n].ActiveRefund() == ys[n].ActiveRefund() && seen[n] == xs[n]
    {
    }
    if n :| 0 <= n < |seen| && seen[n].ActiveRefund() {
      var k := if n < |xs| then n else i;
      assert ys[k].ActiveRefund();
    }
    if n :| 0 <= n < |ys| && ys[n].ActiveRefund() {
      assert seen[n].ActiveRefund();
    }
  }

  /** The pending responses once the response of `attempt`, if it is one, is recorded. */
  function Retired(pending: seq<int>, attempt: Option<int>): seq<int> {
    match attempt
    case None => pending
    case Some(a) => Without(pending, a)
  }

  /** The whole state after an outcome was recorded for the operation at `i`. */
  ghost predicate RecordedAs(s: State, i: nat, o: Outcome, attempt: Option<int>, t: State)
    requires i < |s.operations|
  {
    var op := s.operations[i];
    && |t.operations| == |s.operations|
    && t.operations[i] == OperationAfter(s.facts, op, o, s.operations).(
                            pendingResponseAttempts := Retired(op.pendingResponseAttempts, attempt))
    && (forall n :: 0 <= n < |s.operations| && n != i ==>
          t.operations[n] == OtherAfter(op, o, Takes(s.facts, op, o, s.operations), s.operations[n]))
    && t.facts == FactsAfter(s.facts, op, o, s.operations, AnyActiveRefund(t.operations))
    && t.replay == s.replay
  }

  lemma RecordAtItself(s: State, i: nat)
    requires Sound(s) && i < |s.operations|
    ensures RecordAt(s, i, s.operations[i])
  {
  }

  lemma AfterKeeps(f: PaymentFacts, op: OperationRecord, o: Outcome, operations: seq<OperationRecord>)
    ensures var after := OperationAfter(f, op, o, operations);
      && after.operationId == op.operationId && after.operationType == op.operationType
      && after.pendingResponseAttempts == op.pendingResponseAttempts
  {
    hide Takes, Contradicts, Outside;
  }

  /** What is committed once an outcome is planned. */
  lemma CommittedAs(s: State, i: nat, o: Outcome, attempt: Option<int>)
    requires Sound(s) && i < |s.operations| && WellFormed(s.operations[i], o)
    requires attempt.Some? ==> 0 < attempt.value <= s.operations[i].submissionAttempts
    ensures PlanOutcome(s.facts, s.operations[i], o, s.operations, attempt).Ok?
    ensures var plan := PlanOutcome(s.facts, s.operations[i], o, s.operations, attempt).value;
      RecordedAs(s, i, o, attempt, Committed(s, plan.facts, [plan.operation] + plan.relatedOperations))
  {
    hide PlanEvidence, WellFormed, OperationAfter, FactsAfter, Takes, Sound, Replaced, AnyActiveRefund, Without,
      Completes, OtherAfter;
    var op := s.operations[i];
    RecordAtItself(s, i);
    PlannedExactly(s, i, op, o);
    AfterKeeps(s.facts, op, o, s.operations);
    var inner := PlanEvidence(s.facts, op, o, s.operations).value;
    var plan := PlanOutcome(s.facts, op, o, s.operations, attempt).value;
    var takes := Takes(s.facts, op, o, s.operations);
    CommittedRecords(s, i, op, o, takes, plan.operation, plan.relatedOperations);
    SeenIsCommitted(s, i, op, o, takes, inner.operation, plan.operation, inner.relatedOperations);
  }

  /** In a sound history an outcome is recorded exactly when it is well-formed and names a claimed attempt, if
      any; the state it leaves is then completely determined. */
  lemma OutcomeVerdict(s: State, i: nat, o: Outcome, attempt: Option<int>)
    requires Sound(s) && i < |s.operations|
    ensures var op := s.operations[i];
      var next := Step(s, RecordOutcome(op.operationId, o, attempt));
      && (next.Ok? <==> WellFormed(op, o) && (attempt.Some? ==> 0 < attempt.value <= op.submissionAttempts))
      && (next.Err? ==> next.error == InvalidTransition)
      && (next.Ok? ==> RecordedAs(s, i, o, attempt, next.value))
  {
    var op := s.operations[i];
    FindsItself(s, i);
    FitsWhenWellFormed(op, o);
    RecordedWhenFits(s, i, o, attempt);
    hide PlanOutcome, WellFormed, OutcomeFits, RecordedAs, Sound, SettledOrKept, Replaced, StepOutcome;
    assert Step(s, RecordOutcome(op.operationId, o, attempt)) == StepOutcome(s, op.operationId, o, attempt);
    if WellFormed(op, o) && (attempt.Some? ==> 0 < attempt.value <= op.submissionAttempts) {
      CommittedAs(s, i, o, attempt);
      StepCommits(s, i, o, attempt);
    } else {
      StepRefuses(s, i, o, attempt);
    }
  }

  lemma StepCommits(s: State, i: nat, o: Outcome, attempt: Option<int>)
    requires i < |s.operations| && IndexOf(s.operations, s.operations[i].operationId) == Some(i)
    requires PlanOutcome(s.facts, s.operations[i], o, s.operations, attempt).Ok?
    ensures var plan := PlanOutcome(s.facts, s.operations[i], o, s.operations, attempt).value;
      StepOutcome(s, s.operations[i].operationId, o, attempt)
      == Ok(Committed(s, plan.facts, [plan.operation] + plan.relatedOperations))
  {
    hide PlanOutcome, Replaced;
  }

  lemma StepRefuses(s: State, i: nat, o: Outcome, attempt: Option<int>)
    requires i < |s.operations| && IndexOf(s.operations, s.operations[i].operationId) == Some(i)
    requires !WellFormed(s.operations[i], o)
      || (attempt.Some? && !(0 < attempt.value <= s.operations[i].submissionAttempts))
    ensures StepOutcome(s, s.operations[i].operationId, o, attempt) == Err(InvalidTransition)
  {
    FitsWhenWellFormed(s.operations[i], o);
    hide Replaced, SettlementEffect, WellFormed;
  }

  /** Exactly when an operation and its payment are flagged after an outcome: they were, the outcome asks for it,
      or it contradicts what is known; the payment also when a late capture falls into a refund. */
  lemma OutcomeFlags(s: State, i: nat, o: Outcome, attempt: Option<int>)
    requires Sound(s) && i < |s.operations| && Step(s, RecordOutcome(s.operations[i].operationId, o, attempt)).Ok?
    ensures var op := s.operations[i];
      var t := Step(s, RecordOutcome(op.operationId, o, attempt)).value;
      var flags := op.reconciliationRequired || o.reconciliationRequired || Contradicts(s.facts, op, o, s.operations);
      && |t.operations| == |s.operations|
      && (t.operations[i].reconciliationRequired <==> flags)
      && (t.facts.reconciliationRequired <==>
            || s.facts.reconciliationRequired
            || flags
            || (t.facts.capturedFunds > s.facts.capturedFunds
                && (s.facts.refundedFunds > 0.0 || s.facts.status == RefundStarted)))
  {
    hide Step, Sound, Takes, Contradicts, ReturnedInAll, MoneyStatus, AnyActiveRefund, Outside, HandlesAgree,
      WellFormed,
      OtherAfter;
    OutcomeVerdict(s, i, o, attempt);
  }
}
