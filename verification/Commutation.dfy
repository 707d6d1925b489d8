/** The race between a pending refund and its cancellation: both orders in which their successes are
    recorded end in the same money, status and operation states. */
module Commutation {
  import opened Wrappers
  import opened Records
  import opened StateEngine
  import opened RefundTotal
  import opened Rules
  import opened Effects
  import opened System
  import opened History
  import opened Steps
  import opened Decisions
  import opened Settlements
  import opened Recording

  /** Whether a success of an open operation is accepted, rather than retained as a dispute. */
  ghost predicate Accepted(f: PaymentFacts, op: OperationRecord, o: Outcome, operations: seq<OperationRecord>) {
    && !Absorbs(f, op, o, operations)
    && (op.operationType.StartRefund? ==>
          ConfirmedRefundTotal(op, ClaimedAmount(op, o).GetOr(0.0), operations) <= f.capturedFunds)
  }

  lemma AcceptedMeansPossible(s: State, i: nat, o: Outcome)
    requires Sound(s) && i < |s.operations| && RefundOperation(s.operations[i]) && o.state.Succeeded?
    requires OutcomeFits(s.operations[i], o) && !Absorbs(s.facts, s.operations[i], o, s.operations)
    ensures var op := s.operations[i];
      var known := Known(s.facts, op, o);
      && SettlementEffect(known, op, o, s.operations).Ok?
      && (FinanciallyPossible(known, SettlementEffect(known, op, o, s.operations).value.0)
          <==> Accepted(s.facts, op, o, s.operations))
  {
    var op := s.operations[i];
    var known := Known(s.facts, op, o);
    SettlementExists(s, i, o);
    EffectExists(s, i, known, o);
    SettlementShape(known, op, o, s.operations);
    if op.operationType.StartRefund? {
      RefundTotalPositive(s, i, ClaimedAmount(op, o).value);
    }
    hide SettlementEffect, SettlementUpdate, ConfirmedRefundTotal, Absorbs, Sound, Annotated, OutcomeFits;
    SoundBounded(s);
  }

  /** The planner's verdict on a success, decided by what a caller can see. */
  lemma Verdict(s: State, i: nat, o: Outcome)
    requires Sound(s) && i < |s.operations| && RefundOperation(s.operations[i]) && o.state.Succeeded?
    requires OutcomeFits(s.operations[i], o)
    ensures var op := s.operations[i];
      && PlanEvidence(s.facts, op, o, s.operations).Ok?
      && var plan := PlanEvidence(s.facts, op, o, s.operations).value;
      if Accepted(s.facts, op, o, s.operations)
      then Advanced(s.facts, op, o, s.operations, plan.facts, plan.operation, plan.relatedOperations)
      else Retained(s.facts, op, plan.facts, plan.operation, plan.relatedOperations)
  {
    hide PlanEvidence, SettlementEffect, FinishOutcome, CancellationSucceeded, Replaced, AnyActiveRefund, ApplyToFacts,
      ConfirmedRefundTotal, FindRefund, FinanciallyPossible, Sound, OutcomeFits, Absorbs, SettledMoney, StatusFollows, CompletedTarget;
    var op := s.operations[i];
    SoundBounded(s);
    EvidencePlanned(s, i, o);
    EvidenceEffect(s.facts, op, o, s.operations);
    if Absorbs(s.facts, op, o, s.operations) {
      AbsorbedEvidence(s.facts, op, o, s.operations);
    } else {
      SettledPlan(s.facts, op, o, s.operations);
      AcceptedMeansPossible(s, i, o);
      OpenNotRetained(s, i, o);
    }
  }

  /** An accepted success is not a mere retention, and a refused one moves nothing. */
  lemma OpenNotRetained(s: State, i: nat, o: Outcome)
    requires Sound(s) && i < |s.operations| && RefundOperation(s.operations[i]) && o.state.Succeeded?
    requires OutcomeFits(s.operations[i], o) && !Absorbs(s.facts, s.operations[i], o, s.operations)
    ensures PlanEvidence(s.facts, s.operations[i], o, s.operations).Ok?
    ensures var op := s.operations[i];
      var plan := PlanEvidence(s.facts, op, o, s.operations).value;
      if Accepted(s.facts, op, o, s.operations)
      then plan.operation.state.Succeeded? && !op.state.Succeeded?
      else Retained(s.facts, op, plan.facts, plan.operation, plan.relatedOperations)
  {
    hide PlanEvidence, SettlementEffect, CancellationSucceeded, Reprojected, ApplyToFacts,
      ConfirmedRefundTotal, FindRefund, FinanciallyPossible, Sound, OutcomeFits, Accepted;
    var op := s.operations[i];
    EvidencePlanned(s, i, o);
    SettledPlan(s.facts, op, o, s.operations);
    AcceptedMeansPossible(s, i, o);
  }

  // ---- the two calls ----

  ghost predicate OtherActiveRefund(operations: seq<OperationRecord>, i: nat) {
    exists n :: 0 <= n < |operations| && n != i && operations[n].ActiveRefund()
  }

  /** The status once the refund at `i` is no longer active: another refund still shows. */
  ghost function StatusWithout(f: PaymentFacts, operations: seq<OperationRecord>, i: nat): PaymentStatus {
    if OtherActiveRefund(operations, i) then RefundStarted else MoneyStatus(f)
  }

  ghost predicate OthersKept(before: seq<OperationRecord>, after: seq<OperationRecord>, i: int, j: int) {
    && |before| == |after|
    && forall n :: 0 <= n < |before| && n != i && n != j ==> after[n] == before[n]
  }

  /** What a recorded success of the refund at `i` does. */
  ghost predicate RefundResult(s: State, i: nat, o: Outcome, t: State)
    requires i < |s.operations|
  {
    var op := s.operations[i];
    && OthersKept(s.operations, t.operations, i, i)
    && SameIntent(op, t.operations[i])
    && SameIdentity(s.facts, t.facts)
    && t.facts.capturedFunds == s.facts.capturedFunds
    && t.facts.remainingAuthorization == s.facts.remainingAuthorization
    && if Accepted(s.facts, op, o, s.operations)
       then
         && t.operations[i].state.Succeeded?
         && t.operations[i].settledAmount == ClaimedAmount(op, o)
         && t.facts.refundedFunds
            == Max(s.facts.refundedFunds, ConfirmedRefundTotal(op, ClaimedAmount(op, o).GetOr(0.0), s.operations))
         && t.facts.status == StatusWithout(t.facts, s.operations, i)
       else
         && t.operations[i].state == op.state
         && t.operations[i].settledAmount == op.settledAmount
         && t.facts.refundedFunds == s.facts.refundedFunds
         && t.facts.status == s.facts.status
  }

  /** What a recorded success of the cancellation at `j` of the refund at `i` does. */
  ghost predicate CancelResult(s: State, i: nat, j: nat, o: Outcome, t: State)
    requires i < |s.operations| && j < |s.operations|
  {
    && OthersKept(s.operations, t.operations, i, j)
    && SameIntent(s.operations[j], t.operations[j])
    && t.operations[j].settledAmount == (if Accepted(s.facts, s.operations[j], o, s.operations)
                                        then ClaimedAmount(s.operations[j], o) else s.operations[j].settledAmount)
    && SameIdentity(s.facts, t.facts)
    && SameMoney(s.facts, t.facts)
    && if Accepted(s.facts, s.operations[j], o, s.operations)
       then
         && t.operations[j].state.Succeeded?
         && t.operations[i] == (if s.operations[i].IsActive() then s.operations[i].(state := Rejected) else s.operations[i])
         && t.facts.status == StatusWithout(t.facts, s.operations, i)
       else
         && t.operations[j].state == s.operations[j].state
         && t.operations[i] == s.operations[i]
         && t.facts.status == s.facts.status
  }

  /** Once the refund at `i` has ended, by its own outcome or by that of its cancellation at `k`, the committed
      history shows a refund exactly when another one is active. */
  lemma OthersActive(s: State, i: nat, k: nat, after: OperationRecord, related: seq<OperationRecord>)
    requires Sound(s) && i < |s.operations| && k < |s.operations|
    requires after.operationId == s.operations[k].operationId && !after.ActiveRefund()
    requires k != i ==> !s.operations[k].ActiveRefund() && (related == [] ==> !s.operations[i].ActiveRefund())
    requires related != [] ==> related == [s.operations[i].(state := Rejected)]
    ensures AnyActiveRefund(Replaced(s.operations, [after] + related) + [after]) <==> OtherActiveRefund(s.operations, i)
  {
    var seen := Replaced(s.operations, [after] + related);
    forall n | 0 <= n < |s.operations|
      ensures seen[n].ActiveRefund() <==> n != i && s.operations[n].ActiveRefund()
    {
      ReplacedAt(s.operations, after, related, n);
    }
    assert forall n :: 0 <= n < |s.operations| ==> (seen + [after])[n] == seen[n];
    if OtherActiveRefund(s.operations, i) {
      var n :| 0 <= n < |s.operations| && n != i && s.operations[n].ActiveRefund();
      assert (seen + [after])[n].ActiveRefund();
    }
  }

  lemma CommittedPlan(s: State, k: nat, o: Outcome, attempt: Option<int>)
    requires Sound(s) && k < |s.operations|
    requires StepOutcome(s, s.operations[k].operationId, o, attempt).Ok?
    ensures PlanEvidence(s.facts, s.operations[k], o, s.operations).Ok?
    ensures var t := StepOutcome(s, s.operations[k].operationId, o, attempt).value;
      var plan := PlanEvidence(s.facts, s.operations[k], o, s.operations).value;
      && t.facts == plan.facts
      && SameIdentity(s.facts, t.facts)
      && RelatedTo(s.operations, k, plan.relatedOperations)
      && |t.operations| == |s.operations|
      && SameIntent(s.operations[k], plan.operation)
      && t.operations[k] == plan.operation.(pendingResponseAttempts := t.operations[k].pendingResponseAttempts)
      && (forall n :: 0 <= n < |s.operations| && n != k ==>
            t.operations[n] == if plan.relatedOperations != [] && plan.relatedOperations[0].operationId == s.operations[n].operationId
                               then plan.relatedOperations[0] else s.operations[n])
  {
    hide PlanEvidence, Replaced, Sound, Without, RelatedTo, RecordSound;
    FindsItself(s, k);
    FactsForwardReflexive(s);
    OutcomeDevelops(s, k, s.facts, o, attempt);
    var plan := PlanOutcome(s.facts, s.operations[k], o, s.operations, attempt).value;
    CommitDevelops(s, k, plan.operation, plan.relatedOperations, plan.facts);
  }

  lemma FitsWhenRecorded(s: State, k: nat, o: Outcome, attempt: Option<int>)
    requires Sound(s) && k < |s.operations|
    requires StepOutcome(s, s.operations[k].operationId, o, attempt).Ok?
    ensures OutcomeFits(s.operations[k], o)
  {
    hide StepOutcome, Sound, OutcomeFits, SettledOrKept;
    RecordedWhenFits(s, k, o, attempt);
  }

  lemma RefundRecorded(s: State, i: nat, o: Outcome, attempt: Option<int>)
    requires Sound(s) && i < |s.operations| && s.operations[i].operationType.StartRefund? && o.state.Succeeded?
    requires StepOutcome(s, s.operations[i].operationId, o, attempt).Ok?
    ensures RefundResult(s, i, o, StepOutcome(s, s.operations[i].operationId, o, attempt).value)
  {
    hide PlanEvidence, Replaced, AnyActiveRefund, ConfirmedRefundTotal, FindRefund, Sound, OutcomeFits, Absorbs,
      Accepted,
      StepOutcome, RelatedTo, WithPaid, CancellationSucceeded;
    var op := s.operations[i];
    FitsWhenRecorded(s, i, o, attempt);
    Verdict(s, i, o);
    CommittedPlan(s, i, o, attempt);
    CapturedWhenRefunding(s, i);
    var plan := PlanEvidence(s.facts, op, o, s.operations).value;
    if Accepted(s.facts, op, o, s.operations) {
      OthersActive(s, i, i, plan.operation, []);
    }
  }

  lemma CancelRecorded(s: State, i: nat, j: nat, o: Outcome, attempt: Option<int>)
    requires Sound(s) && i < j < |s.operations| && s.operations[j].Cancels(s.operations[i]) && o.state.Succeeded?
    requires StepOutcome(s, s.operations[j].operationId, o, attempt).Ok?
    ensures CancelResult(s, i, j, o, StepOutcome(s, s.operations[j].operationId, o, attempt).value)
  {
    hide PlanEvidence, Replaced, AnyActiveRefund, ConfirmedRefundTotal, FindRefund, Sound, Absorbs, Accepted,
      StepOutcome, RelatedTo, WithPaid, CancellationSucceeded;
    var op := s.operations[j];
    FitsWhenRecorded(s, j, o, attempt);
    Verdict(s, j, o);
    CommittedPlan(s, j, o, attempt);
    CapturedWhenRefunding(s, i);
    CancelFinds(s, i, j);
    var plan := PlanEvidence(s.facts, op, o, s.operations).value;
    if Accepted(s.facts, op, o, s.operations) {
      OthersActive(s, i, j, plan.operation, plan.relatedOperations);
    }
  }

  lemma CancelFinds(s: State, i: nat, j: nat)
    requires Sound(s) && i < |s.operations| && j < |s.operations| && s.operations[j].Cancels(s.operations[i])
    ensures FindRefund(s.operations, s.facts.paymentId, s.operations[j].Target()) == Some(s.operations[i])
    ensures forall n :: 0 <= n < |s.operations| && n != i ==> s.operations[n].operationId != s.operations[i].operationId
  {
    var k := FindRefundFinds(s.operations, s.facts.paymentId, s.operations[j].Target());
    assert RecordSound(s.facts, s.operations[i]);
    assert IsRefund(s.operations[i], s.facts.paymentId, s.operations[j].Target());
  }

  // ---- both orders ----

  lemma {:induction false} SameOthers(a: OperationRecord, b: OperationRecord, xs: seq<OperationRecord>,
                                      ys: seq<OperationRecord>)
    requires SameIntent(a, b) && |xs| == |ys|
    requires forall n :: 0 <= n < |xs| ==>
      || ys[n] == xs[n]
      || (SameIntent(xs[n], ys[n]) && (!xs[n].operationType.StartRefund? || xs[n].operationId == a.operationId))
    ensures OtherRefunds(a, xs) == OtherRefunds(b, ys)
  {
    if xs == [] {
    } else {
      SameOthers(a, b, xs[1..], ys[1..]);
    }
  }

  /** Neither the cancellation nor the refund itself changes the refund's cumulative bound. */
  lemma SameTotal(s: State, t: State, i: nat, j: nat, o: Outcome, amount: Money)
    requires i < j < |s.operations| && CancelResult(s, i, j, o, t)
    requires s.operations[j].Cancels(s.operations[i])
    ensures ConfirmedRefundTotal(s.operations[i], amount, s.operations)
         == ConfirmedRefundTotal(t.operations[i], amount, t.operations)
  {
    hide Accepted;
    SameOthers(s.operations[i], t.operations[i], s.operations, t.operations);
  }

  /** A refund and its pending cancellation, both still open. */
  ghost predicate Racing(s: State, i: nat, j: nat) {
    && Sound(s)
    && i < j < |s.operations|
    && s.operations[j].Cancels(s.operations[i])
    && s.operations[i].IsActive()
    && s.operations[j].IsActive()
  }

  lemma OnlyRefund(s: State, i: nat, j: nat)
    requires Racing(s, i, j)
    ensures !OtherActiveRefund(s.operations, i)
  {
    forall n | 0 <= n < |s.operations| && n != i
      ensures !s.operations[n].ActiveRefund()
    {
      if s.operations[n].Holds() {
        HoldersCancel(s, i, n);
      }
    }
  }

  /** Whether the cancellation is accepted does not depend on the refund. */
  lemma CancelVerdict(f: PaymentFacts, op: OperationRecord, o: Outcome, operations: seq<OperationRecord>)
    requires op.operationType.CancelRefund? && op.IsActive() && OutcomeFits(op, o)
    ensures Accepted(f, op, o, operations) <==> !(op.correlation.Some? && o.correlation.Some? && op.correlation != o.correlation)
  {
    hide CancellationSucceeded;
  }

  /** Whether the refund is accepted, open or already cancelled. */
  lemma RefundVerdict(f: PaymentFacts, op: OperationRecord, o: Outcome, operations: seq<OperationRecord>)
    requires op.operationType.StartRefund? && OutcomeFits(op, o) && o.state.Succeeded?
    requires op.IsActive() || (op.state.Rejected? && CancellationSucceeded(op, operations))
    ensures Accepted(f, op, o, operations) <==>
      && !ImpossibleSettlement(op, o)
      && !(op.correlation.Some? && o.correlation.Some? && op.correlation != o.correlation)
      && ConfirmedRefundTotal(op, ClaimedAmount(op, o).GetOr(0.0), operations) <= f.capturedFunds
  {
    hide ConfirmedRefundTotal;
  }

  /** Everything that the two orders are compared on. */
  ghost predicate SameEnd(t: State, u: State) {
    && SameMoney(t.facts, u.facts)
    && t.facts.status == u.facts.status
    && |t.operations| == |u.operations|
    && forall n :: 0 <= n < |t.operations| ==>
         && SameIntent(t.operations[n], u.operations[n])
         && t.operations[n].state == u.operations[n].state
         && t.operations[n].settledAmount == u.operations[n].settledAmount
  }

  function Recorded(s: State, i: nat, o: Outcome, attempt: Option<int>): State
    requires i < |s.operations|
  {
    After(s, RecordOutcome(s.operations[i].operationId, o, attempt))
  }

  /** The refund's verdict survives the cancellation, and the cancellation's survives the refund. */
  lemma SameVerdicts(s: State, i: nat, j: nat, oR: Outcome, oC: Outcome, refunded: State, cancelled: State)
    requires Racing(s, i, j) && oR.state.Succeeded? && oC.state.Succeeded?
    requires OutcomeFits(s.operations[i], oR) && OutcomeFits(s.operations[j], oC)
    requires RefundResult(s, i, oR, refunded) && CancelResult(s, i, j, oC, cancelled)
    ensures Accepted(s.facts, s.operations[i], oR, s.operations)
        <==> Accepted(cancelled.facts, cancelled.operations[i], oR, cancelled.operations)
    ensures Accepted(s.facts, s.operations[j], oC, s.operations)
        <==> Accepted(refunded.facts, refunded.operations[j], oC, refunded.operations)
  {
    hide ConfirmedRefundTotal, Accepted, CancellationSucceeded, Sound;
    SameTotal(s, cancelled, i, j, oC, ClaimedAmount(s.operations[i], oR).GetOr(0.0));
    if cancelled.operations[j].state.Succeeded? {
      assert cancelled.operations[j] in cancelled.operations;
      CancellationRecorded(s, i, j, cancelled);
    }
    RefundVerdict(s.facts, s.operations[i], oR, s.operations);
    RefundVerdict(cancelled.facts, cancelled.operations[i], oR, cancelled.operations);
    CancelVerdict(s.facts, s.operations[j], oC, s.operations);
    CancelVerdict(refunded.facts, refunded.operations[j], oC, refunded.operations);
  }

  lemma CancellationRecorded(s: State, i: nat, j: nat, t: State)
    requires Racing(s, i, j) && |t.operations| == |s.operations|
    requires SameIntent(s.operations[i], t.operations[i]) && SameIntent(s.operations[j], t.operations[j])
    requires t.operations[j].state.Succeeded?
    ensures CancellationSucceeded(t.operations[i], t.operations)
  {
    assert RecordSound(s.facts, s.operations[i]) && RecordSound(s.facts, s.operations[j]);
    assert t.operations[j] in t.operations;
  }

  /** An outcome that will be recorded: its shape fits, and any attempt it answers was claimed. */
  predicate Recordable(op: OperationRecord, o: Outcome, attempt: Option<int>) {
    OutcomeFits(op, o) && (attempt.Some? ==> 0 < attempt.value <= op.submissionAttempts)
  }

  lemma RecordableIsRecorded(s: State, i: nat, o: Outcome, attempt: Option<int>)
    requires Sound(s) && i < |s.operations|
    ensures StepOutcome(s, s.operations[i].operationId, o, attempt).Ok? <==> Recordable(s.operations[i], o, attempt)
  {
    hide StepOutcome, Sound, OutcomeFits, SettledOrKept;
    RecordedWhenFits(s, i, o, attempt);
  }

  /** Success of a refund and success of the cancellation that names it may be recorded in either
      order, for any history, settled amount and handles, even disputed ones. */
  lemma CancellationCommutes(s: State, i: nat, j: nat, oR: Outcome, oC: Outcome, aR: Option<int>, aC: Option<int>)
    requires Racing(s, i, j) && oR.state.Succeeded? && oC.state.Succeeded?
    requires Recordable(s.operations[i], oR, aR) && Recordable(s.operations[j], oC, aC)
    ensures var refunded := Recorded(s, i, oR, aR);
      var cancelled := Recorded(s, j, oC, aC);
      && i < |cancelled.operations| && j < |refunded.operations|
      && SameEnd(Recorded(refunded, j, oC, aC), Recorded(cancelled, i, oR, aR))
  {
    hide Sound, StepOutcome, OutcomeFits, Accepted, ConfirmedRefundTotal;
    var refunded := Recorded(s, i, oR, aR);
    var cancelled := Recorded(s, j, oC, aC);
    OnlyRefund(s, i, j);
    RecordableIsRecorded(s, i, oR, aR);
    RecordableIsRecorded(s, j, oC, aC);
    RefundRecorded(s, i, oR, aR);
    CancelRecorded(s, i, j, oC, aC);
    AfterDevelops(s, RecordOutcome(s.operations[i].operationId, oR, aR));
    AfterDevelops(s, RecordOutcome(s.operations[j].operationId, oC, aC));
    SameVerdicts(s, i, j, oR, oC, refunded, cancelled);
    SameTotal(s, cancelled, i, j, oC, ClaimedAmount(s.operations[i], oR).GetOr(0.0));
    StillRecorded(s, j, oC, aC, refunded);
    StillRecorded(s, i, oR, aR, cancelled);
    CancelRecorded(refunded, i, j, oC, aC);
    RefundRecorded(cancelled, i, oR, aR);
  }

  /** A recordable outcome stays recordable whatever develops first. */
  lemma StillRecorded(s: State, j: nat, o: Outcome, attempt: Option<int>, t: State)
    requires Sound(s) && Sound(t) && j < |s.operations| && Develops(s, t)
    requires Recordable(s.operations[j], o, attempt)
    ensures j < |t.operations| && StepOutcome(t, t.operations[j].operationId, o, attempt).Ok?
  {
    hide Sound, StepOutcome;
    assert Forward(s.operations[j], t.operations[j]);
    RecordableIsRecorded(t, j, o, attempt);
  }
}
