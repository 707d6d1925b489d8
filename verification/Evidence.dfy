/** No evidence is silently dropped: what is not applied is retained, flagged, and kept over every
    run. */
module Evidence {
  import opened Wrappers
  import opened Records
  import opened StateEngine
  import opened Rules
  import opened Resolution
  import opened Effects
  import opened System
  import opened History
  import opened Steps
  import opened Decisions
  import opened Recording

  // ---- outcomes ----

  /** The outcome names no provider handle other than those already known. */
  predicate HandlesAgree(f: PaymentFacts, op: OperationRecord, o: Outcome) {
    && (op.correlation.None? || o.correlation.None? || op.correlation == o.correlation)
    && (f.externalId.None? || o.externalId.None? || f.externalId == o.externalId)
  }

  /** The outcome says nothing that an ended operation does not already say. */
  predicate AlreadyKnown(op: OperationRecord, o: Outcome) {
    && op.state.Terminal()
    && (o.state.Terminal() ==> o.state == op.state && (op.state.Succeeded? ==> ClaimedAmount(op, o) == op.settledAmount))
  }

  /** The outcome is retained as a dispute, and somebody must look at it. */
  ghost predicate Disputed(op: OperationRecord, o: Outcome, g: PaymentFacts, after: OperationRecord) {
    && o in after.conflictingOutcomes
    && op.conflictingOutcomes <= after.conflictingOutcomes
    && after.reconciliationRequired
    && g.reconciliationRequired
  }

  /** Every planned outcome advances its operation, repeats what is known, or is a dispute; one whose
      handles disagree is always a dispute, and its own handle never replaces a known one. */
  ghost predicate Accounted(f: PaymentFacts, op: OperationRecord, o: Outcome, operations: seq<OperationRecord>,
                            plan: OutcomePlan) {
    && (|| Disputed(op, o, plan.facts, plan.operation)
        || (HandlesAgree(f, op, o) && AlreadyKnown(op, o))
        || (HandlesAgree(f, op, o)
            && Advanced(f, op, o, operations, plan.facts, plan.operation, plan.relatedOperations)))
    && (!ImpossibleSettlement(op, o) ==>
          plan.operation.correlation == if op.correlation.Some? then op.correlation else o.correlation)
    && (HandlesAgree(f, op, o) && !ImpossibleSettlement(op, o) && o.externalId.Some? ==>
          plan.facts.externalId == o.externalId)
  }

  lemma AbsorbedIsAccounted(f: PaymentFacts, op: OperationRecord, o: Outcome, operations: seq<OperationRecord>)
    requires PlanEvidence(f, op, o, operations).Ok? && Absorbs(f, op, o, operations)
    ensures Accounted(f, op, o, operations, PlanEvidence(f, op, o, operations).value)
  {
    hide SettlementEffect, SettlementUpdate, FinishOutcome, CancellationSucceeded, Advanced;
  }

  lemma FinishedKeepsEvidence(g: PaymentFacts, recorded: OperationRecord, related: seq<OperationRecord>, o: Outcome,
                              operations: seq<OperationRecord>)
    ensures var plan := FinishOutcome(g, recorded, related, o, operations);
      && plan.operation.correlation == recorded.correlation
      && plan.operation.conflictingOutcomes == recorded.conflictingOutcomes
      && plan.facts.externalId == g.externalId
  {
    hide Replaced, AnyActiveRefund;
  }

  lemma OpenHandlesAgree(f: PaymentFacts, op: OperationRecord, o: Outcome, operations: seq<OperationRecord>)
    requires !Absorbs(f, op, o, operations)
    ensures HandlesAgree(f, op, o) && !ImpossibleSettlement(op, o)
    ensures Annotated(f, op, o).correlation == if op.correlation.Some? then op.correlation else o.correlation
    ensures op.conflictingOutcomes <= Annotated(f, op, o).conflictingOutcomes
  {
  }

  lemma UnsettledIsAccounted(f: PaymentFacts, op: OperationRecord, o: Outcome, operations: seq<OperationRecord>)
    requires PlanEvidence(f, op, o, operations).Ok? && !Absorbs(f, op, o, operations) && !o.state.Succeeded?
    requires Advanced(f, op, o, operations, PlanEvidence(f, op, o, operations).value.facts,
                      PlanEvidence(f, op, o, operations).value.operation,
                      PlanEvidence(f, op, o, operations).value.relatedOperations)
    ensures Accounted(f, op, o, operations, PlanEvidence(f, op, o, operations).value)
  {
    OpenHandlesAgree(f, op, o, operations);
    hide SettlementEffect, SettlementUpdate, FinishOutcome, CancellationSucceeded, Advanced, Annotated;
    FinishedKeepsEvidence(Known(f, op, o), Annotated(f, op, o), [], o, operations);
  }

  lemma AppliedHandle(f: PaymentFacts, u: Update)
    requires ApplyToFacts(f, u).Ok? && (u.externalId.Some? ==> u.externalId == f.externalId)
    ensures ApplyToFacts(f, u).value.externalId == f.externalId
  {
    hide ApplyCaptureTotal, ApplyRefundTotal;
    var update := WithoutStaleHold(f, u);
    var v1 := ApplyCaptureTotal(ViewOf(f), update).value;
    var v2 := ApplyRefundTotal(v1, update).value;
    CaptureStep(ViewOf(f), update);
    RefundStep(v1, update);
    assert ApplyToView(ViewOf(f), update) == ApplyUpdate(v2, LastUpdate(v2, update));
    HandleAfter(v2, LastUpdate(v2, update));
  }

  lemma HandleAfter(v: View, u: Update)
    requires ApplyUpdate(v, u).Ok?
    ensures ApplyUpdate(v, u).value.externalId == if u.externalId.Some? then u.externalId else v.externalId
  {
    hide ProjectStatus, UpdateAmountsValid;
  }

  lemma SettlementHandle(f: PaymentFacts, op: OperationRecord, o: Outcome, operations: seq<OperationRecord>)
    requires OutcomeFits(op, o) && SettlementEffect(f, op, o, operations).Ok?
    ensures SettlementEffect(f, op, o, operations).value.0.externalId == o.externalId
  {
    hide ConfirmedRefundTotal, FindRefund;
  }

  lemma SettledIsAccounted(f: PaymentFacts, op: OperationRecord, o: Outcome, operations: seq<OperationRecord>)
    requires FactsBounded(f)
    requires PlanEvidence(f, op, o, operations).Ok? && !Absorbs(f, op, o, operations) && o.state.Succeeded?
    ensures Accounted(f, op, o, operations, PlanEvidence(f, op, o, operations).value)
  {
    OpenHandlesAgree(f, op, o, operations);
    SettledPlan(f, op, o, operations);
    EvidenceEffect(f, op, o, operations);
    var known := Known(f, op, o);
    var effect := SettlementEffect(known, op, o, operations).value;
    var recorded := Annotated(f, op, o).(settledAmount := ClaimedAmount(op, o));
    SettlementHandle(known, op, o, operations);
    hide PlanEvidence, SettlementEffect, SettledMoney, CompletedTarget, StatusFollows, ApplyToFacts,
      FinanciallyPossible,
      FactsBounded, OutcomeFits, FinishOutcome, Annotated, CancellationSucceeded;
    if FinanciallyPossible(known, effect.0) {
      var g := ApplyToFacts(known, effect.0).value;
      AppliedHandle(known, effect.0);
      FinishedKeepsEvidence(g, recorded, effect.1, o, operations);
      FinishedSucceeds(g, recorded, effect.1, o, operations);
      assert !op.state.Succeeded?;
    }
  }

  lemma PlannedIsAccounted(f: PaymentFacts, op: OperationRecord, o: Outcome, operations: seq<OperationRecord>)
    requires FactsBounded(f) && PlanEvidence(f, op, o, operations).Ok?
    ensures Accounted(f, op, o, operations, PlanEvidence(f, op, o, operations).value)
  {
    hide PlanEvidence, Accounted, Absorbs, FactsBounded;
    if Absorbs(f, op, o, operations) {
      AbsorbedIsAccounted(f, op, o, operations);
    } else if o.state.Succeeded? {
      SettledIsAccounted(f, op, o, operations);
    } else {
      OpenAdvances(f, op, o, operations);
      UnsettledIsAccounted(f, op, o, operations);
    }
  }

  lemma OpenAdvances(f: PaymentFacts, op: OperationRecord, o: Outcome, operations: seq<OperationRecord>)
    requires PlanEvidence(f, op, o, operations).Ok? && !Absorbs(f, op, o, operations) && !o.state.Succeeded?
    ensures var plan := PlanEvidence(f, op, o, operations).value;
      Advanced(f, op, o, operations, plan.facts, plan.operation, plan.relatedOperations)
  {
    hide SettlementEffect, SettlementUpdate, FinishOutcome, CancellationSucceeded, Replaced, AnyActiveRefund;
    FinishedStatus(Known(f, op, o), Annotated(f, op, o), [], o, operations);
  }

  /** Whatever is called afterwards, a recorded outcome that neither advanced its operation nor
      repeated what was known stays in the retained disputes of that operation. */
  lemma RecordedEvidenceIsKept(s: State, i: nat, o: Outcome, attempt: Option<int>, commands: seq<Command>)
    requires Sound(s) && i < |s.operations|
    requires StepOutcome(s, s.operations[i].operationId, o, attempt).Ok?
    ensures var op := s.operations[i];
      var t := StepOutcome(s, op.operationId, o, attempt).value;
      && i < |t.operations|
      && i < |Run(t, commands).operations|
      && (|| (o in t.operations[i].conflictingOutcomes
              && t.operations[i].reconciliationRequired
              && o in Run(t, commands).operations[i].conflictingOutcomes)
          || (HandlesAgree(s.facts, op, o)
              && (|| AlreadyKnown(op, o)
                  || ((!op.state.Terminal() || CancelledRefundSettled(op, o, s.operations))
                      && t.operations[i].state == NextState(op.state, o.state)))))
  {
    hide StepOutcome, PlanEvidence, Sound, Develops, Run, ImpossibleSettlement, NextState, HandlesAgree, AlreadyKnown,
      FactsBounded;
    var op := s.operations[i];
    var t := StepOutcome(s, op.operationId, o, attempt).value;
    RecordedWhenFits(s, i, o, attempt);
    SoundBounded(s);
    PlannedIsAccounted(s.facts, op, o, s.operations);
    OutcomeStep(s, op.operationId, o, attempt);
    RunDevelops(t, commands);
    DevelopedAt(t, Run(t, commands), i);
  }

  lemma DevelopedAt(s: State, t: State, i: nat)
    requires Develops(s, t) && i < |s.operations|
    ensures i < |t.operations| && s.operations[i].conflictingOutcomes <= t.operations[i].conflictingOutcomes
    ensures s.operations[i].recoveryEvidence <= t.operations[i].recoveryEvidence
  {
  }

  // ---- recording failures ----

  /** A response that could not be recorded leaves its safe fields with the operation for good,
      requires reconciliation, and moves neither money nor state. */
  lemma FailureIsKept(s: State, i: nat, evidence: RecoveryEvidence, commands: seq<Command>)
    requires Sound(s) && i < |s.operations|
    ensures var c := RecordFailure(s.operations[i].operationId, evidence);
      var t := After(s, c);
      && Step(s, c).Ok?
      && t.facts == s.facts
      && i < |t.operations|
      && t.operations[i].reconciliationRequired
      && t.operations[i].state == s.operations[i].state
      && t.operations[i].pendingResponseAttempts == s.operations[i].pendingResponseAttempts
      && i < |Run(t, commands).operations|
      && evidence in Run(t, commands).operations[i].recoveryEvidence
  {
    FindsItself(s, i);
    var c := RecordFailure(s.operations[i].operationId, evidence);
    assert Step(s, c) == StepFailure(s, s.operations[i].operationId, evidence);
    var t := After(s, c);
    AfterDevelops(s, c);
    RunDevelops(t, commands);
    hide Sound, Develops, Run, Step;
    DevelopedAt(t, Run(t, commands), i);
    assert evidence in t.operations[i].recoveryEvidence;
  }

  // ---- observations ----

  /** A total that this payment cannot have: negative, captured beyond the required amount, refunded
      beyond what is captured, or held beyond what the same snapshot leaves uncaptured. */
  predicate ClaimsTheImpossible(f: PaymentFacts, u: Update) {
    var captured := Max(f.capturedFunds, u.paidAmount.GetOr(0.0));
    || (u.paidAmount.Some? && !(0.0 <= u.paidAmount.value <= f.amountRequired))
    || (u.refundedAmount.Some? && !(0.0 <= u.refundedAmount.value <= captured))
    || (u.lockedAmount.Some?
        && !(0.0 < u.lockedAmount.value <= f.amountRequired - u.paidAmount.GetOr(f.capturedFunds)))
  }

  lemma ImpossibleMeansClaimed(f: PaymentFacts, u: Update)
    requires FactsBounded(f)
    ensures !FinanciallyPossible(f, u) <==> ClaimsTheImpossible(f, u)
  {
  }

  predicate NewEvent(s: State, u: Update) {
    var record := ReplayFor(s.facts, u);
    record.None? || KnownReplay(s.replay, record.value).None?
  }

  /** Why an observation, or a part of it, cannot be applied as evidence. */
  ghost predicate Grounds(s: State, u: Update, reason: ConflictReason) {
    if reason == ConflictingIdentity then
      !NewEvent(s, u) && KnownReplay(s.replay, ReplayFor(s.facts, u).value).value.contentDigest != ContentOf(u)
    else if reason == FinancialConstraints then NewEvent(s, u) && ClaimsTheImpossible(s.facts, u)
    else
      && NewEvent(s, u) && !ClaimsTheImpossible(s.facts, u)
      && match reason
         case UnresolvedDelta => u.DeltaOnly() && u.OutcomePart().None?
         case AmbiguousCancellation =>
           u.paymentEvent in {Some(LockReleased), Some(RefundCancelled)} && !u.ScopedRelease() && u.OutcomePart().None?
         case ConflictingExternalId =>
           s.facts.externalId.Some? && u.externalId.Some? && u.externalId != s.facts.externalId
         case UncorrelatedOutcome => u.OutcomePart().Some? && !Unique(s, u)
         case _ =>
           u.OutcomePart().Some? && Unique(s, u) && DeltaDisagrees(s, u)
  }

  /** The isolated increments are not what the correlated operation settled. */
  ghost predicate DeltaDisagrees(s: State, u: Update) {
    && u.OutcomePart().Some?
    && forall r :: r in s.operations && Correlates(s, u, r) ==> !DeltaMatches(u, r, u.OutcomePart().value)
  }

  /** The outcome is about `r`: by the identity it names, or else by a retained provider handle. */
  predicate Correlates(s: State, u: Update, r: OperationRecord) {
    && u.OutcomePart().Some?
    && r.paymentId == s.facts.paymentId
    && r.backend == s.facts.backend
    && if u.correlated.value.operationId.Some? then u.correlated.value.operationId == Some(r.operationId)
       else u.OutcomePart().value.correlation.Some? && r.correlation == u.OutcomePart().value.correlation
  }

  /** Exactly one retained operation correlates. */
  ghost predicate Unique(s: State, u: Update) {
    exists i :: OnlyCorrelated(s, u, i)
  }

  ghost predicate OnlyCorrelated(s: State, u: Update, i: int) {
    && 0 <= i < |s.operations|
    && forall k :: 0 <= k < |s.operations| ==> (Correlates(s, u, s.operations[k]) <==> k == i)
  }

  ghost predicate Claimed(g: PaymentFacts, u: Update, reason: ConflictReason) {
    ObservationConflict(u.providerEventId, ContentOf(u), reason) in g.observationConflicts
  }

  lemma RetainClaims(f: PaymentFacts, u: Update, reason: ConflictReason)
    ensures var g := RetainObservation(f, u, reason);
      && Claimed(g, u, reason)
      && g.reconciliationRequired
      && f.observationConflicts <= g.observationConflicts
      && g == f.(reconciliationRequired := true, observationConflicts := g.observationConflicts)
  {
  }

  /** Disputes and flags survive from one set of facts to another. */
  ghost predicate Keeps(f: PaymentFacts, g: PaymentFacts) {
    && f.observationConflicts <= g.observationConflicts
    && (f.reconciliationRequired ==> g.reconciliationRequired)
  }

  lemma ScreenedClaims(s: State, u: Update, reason: ConflictReason)
    requires Grounds(s, u, reason) && reason in {UnresolvedDelta, AmbiguousCancellation, ConflictingExternalId}
    ensures Claimed(Screened(s.facts, u).0, u, reason) && Screened(s.facts, u).0.reconciliationRequired
  {
    hide ContentOf, KnownReplay;
    var f := s.facts;
    var f0 := if u.DeltaOnly() && u.OutcomePart().None? then RetainObservation(f, u, UnresolvedDelta) else f;
    RetainClaims(f, u, UnresolvedDelta);
    RetainClaims(f0, u, AmbiguousCancellation);
    var f1 :=
      if u.paymentEvent in {Some(LockReleased), Some(RefundCancelled)} && !u.ScopedRelease() && u.OutcomePart().None?
      then RetainObservation(f0, u, AmbiguousCancellation) else f0;
    RetainClaims(f1, u, ConflictingExternalId);
    hide RetainObservation, Claimed;
    assert AggregatePart(u).externalId == u.externalId;
    if reason != ConflictingExternalId {
      assert Claimed(f1, u, reason) by {
        ClaimStays(f0, f1, u, reason);
      }
      ClaimStays(f1, RetainObservation(f1, u, ConflictingExternalId), u, reason);
    }
  }

  lemma ClaimStays(f: PaymentFacts, g: PaymentFacts, u: Update, reason: ConflictReason)
    requires f.observationConflicts <= g.observationConflicts
    ensures Claimed(f, u, reason) ==> Claimed(g, u, reason)
  {
  }

  lemma CorrelatesIsCandidate(s: State, u: Update, f: PaymentFacts, r: OperationRecord)
    requires u.OutcomePart().Some? && SameIdentity(s.facts, f)
    ensures Correlates(s, u, r) <==> Candidate(f, u.correlated.value, u.OutcomePart().value, r)
  {
  }

  /** The planner finds one candidate exactly when one operation correlates. */
  lemma {:induction false} CountCandidates(f: PaymentFacts, c: Correlated, o: Outcome, operations: seq<OperationRecord>)
    ensures Candidates(f, c, o, operations) == [] <==> forall r :: r in operations ==> !Candidate(f, c, o, r)
    ensures |Candidates(f, c, o, operations)| == 1 <==>
      exists i :: OnlyCandidate(f, c, o, operations, i)
  {
    hide Candidate;
    if operations == [] {
    } else {
      var first, rest := operations[0], operations[1..];
      CountCandidates(f, c, o, rest);
      assert forall r :: r in operations <==> r == first || r in rest;
      if Candidate(f, c, o, first) {
        if Candidates(f, c, o, rest) == [] {
          assert OnlyCandidate(f, c, o, operations, 0) by {
            forall k | 0 <= k < |operations|
              ensures Candidate(f, c, o, operations[k]) <==> k == 0
            {
              assert 0 < k ==> operations[k] in rest;
            }
          }
        } else {
          var r :| r in rest && Candidate(f, c, o, r);
          var k :| 0 <= k < |rest| && rest[k] == r;
          assert operations[k + 1] == r && operations[0] == first;
        }
      } else {
        if i :| OnlyCandidate(f, c, o, rest, i) {
          assert OnlyCandidate(f, c, o, operations, i + 1) by {
            assert forall k :: 0 < k < |operations| ==> operations[k] == rest[k - 1];
          }
        }
        if i :| OnlyCandidate(f, c, o, operations, i) {
          assert i != 0;
          assert OnlyCandidate(f, c, o, rest, i - 1) by {
            assert forall k :: 0 <= k < |rest| ==> rest[k] == operations[k + 1];
          }
        }
      }
    }
  }

  ghost predicate OnlyCandidate(f: PaymentFacts, c: Correlated, o: Outcome, operations: seq<OperationRecord>, i: int) {
    && 0 <= i < |operations|
    && forall k :: 0 <= k < |operations| ==> (Candidate(f, c, o, operations[k]) <==> k == i)
  }

  lemma UniqueIsOneCandidate(s: State, u: Update, f: PaymentFacts)
    requires u.OutcomePart().Some? && SameIdentity(s.facts, f)
    ensures Unique(s, u) <==> |Candidates(f, u.correlated.value, u.OutcomePart().value, s.operations)| == 1
  {
    hide Correlates, Candidate, Candidates;
    var c, o := u.correlated.value, u.OutcomePart().value;
    CountCandidates(f, c, o, s.operations);
    forall k | 0 <= k < |s.operations|
      ensures Correlates(s, u, s.operations[k]) <==> Candidate(f, c, o, s.operations[k])
    {
      CorrelatesIsCandidate(s, u, f, s.operations[k]);
    }
    if i :| OnlyCorrelated(s, u, i) {
      assert OnlyCandidate(f, c, o, s.operations, i);
    }
    if i :| OnlyCandidate(f, c, o, s.operations, i) {
      assert OnlyCorrelated(s, u, i);
    }
  }

  /** The only records an observation of one correlated operation may change: that one, and a refund
      that it cancels. */
  ghost predicate ChangesOnly(s: State, i: int, t: State) {
    && 0 <= i < |s.operations| == |t.operations|
    && forall n :: 0 <= n < |s.operations| && n != i && t.operations[n] != s.operations[n] ==>
         s.operations[i].Cancels(s.operations[n]) && t.operations[n] == s.operations[n].(state := Rejected)
  }

  lemma ChangedHasCandidate(s: State, u: Update)
    requires StepObserve(s, Some(u)).Ok? && StepObserve(s, Some(u)).value.operations != s.operations
    ensures u.OutcomePart().Some?
    ensures |Candidates(Screened(s.facts, u).0, u.correlated.value, u.OutcomePart().value, s.operations)| == 1
  {
    hide Screened, AggregateFacts, Candidates, PlanOutcome, DeltaMatches, RetainObservation, MarkedRefund, Replaced,
      FinanciallyPossible, KnownReplay, ObservationValid;
    ReplacedNothing(s.operations);
  }

  /** An observation changes an operation only when exactly one retained operation correlates with its
      outcome; it then changes that one, and at most the refund that it cancels. */
  lemma AppliedOnlyWhenUnique(s: State, u: Update) returns (i: int)
    requires Sound(s) && StepObserve(s, Some(u)).Ok? && StepObserve(s, Some(u)).value.operations != s.operations
    ensures Unique(s, u) && OnlyCorrelated(s, u, i)
    ensures ChangesOnly(s, i, StepObserve(s, Some(u)).value)
  {
    hide StepObserve, Sound, Candidates, Correlates, Screened, AggregateFacts, PlanOutcome, MarkedRefund, Replaced,
      FactsForward, Forward, RecordSound, DeltaMatches;
    ChangedHasCandidate(s, u);
    ScreenedBounded(s, u);
    UniqueIsOneCandidate(s, u, Screened(s.facts, u).0);
    var k :| OnlyCorrelated(s, u, k);
    i := ObserveCases(s, u);
    CorrelatesIsCandidate(s, u, s.facts, s.operations[i]);
    var plan := CorrelatedPlan(s, u, i);
    var t := StepObserve(s, Some(u)).value;
    AggregateForwardSound(s, u);
    OutcomeDevelops(s, i, AggregateFacts(s.facts, u).value, u.OutcomePart().value, None);
    MarkedForward(s.facts, plan.facts, t.operations, plan.operation);
    CommitDevelops(s, i, plan.operation, plan.relatedOperations, t.facts);
    CommittedChanges(s, i, plan.relatedOperations, t);
  }

  lemma CommittedChanges(s: State, i: nat, related: seq<OperationRecord>, t: State)
    requires Sound(s) && RelatedTo(s.operations, i, related) && |t.operations| == |s.operations|
    requires forall n :: 0 <= n < |s.operations| && n != i ==>
      t.operations[n] == if related != [] && related[0].operationId == s.operations[n].operationId
                         then related[0] else s.operations[n]
    ensures ChangesOnly(s, i, t)
  {
    if related != [] {
      var k :| CompletesTarget(s.operations, i, k, related);
      assert forall n :: 0 <= n < |s.operations| && n != k ==> s.operations[n].operationId != s.operations[k].operationId;
    }
  }

  lemma AggregateKeeps(f: PaymentFacts, u: Update)
    requires FactsBounded(f) && AggregateFacts(f, u).Ok?
    ensures Keeps(Screened(f, u).0, AggregateFacts(f, u).value)
  {
    hide Screened, ApplyToFacts;
    AppliedFacts(Screened(f, u).0, Screened(f, u).1);
  }

  lemma OutcomeKeeps(f: PaymentFacts, op: OperationRecord, o: Outcome, operations: seq<OperationRecord>)
    requires FactsBounded(f) && PlanOutcome(f, op, o, operations, None).Ok?
    ensures Keeps(f, PlanOutcome(f, op, o, operations, None).value.facts)
  {
    hide PlanEvidence, Retained, Advanced;
    EvidenceEffect(f, op, o, operations);
  }

  lemma ScreenedBounded(s: State, u: Update)
    requires Sound(s)
    ensures SameIdentity(s.facts, Screened(s.facts, u).0)
    ensures AggregateFacts(s.facts, u).Ok? ==> FactsBounded(AggregateFacts(s.facts, u).value)
  {
    hide Screened, AggregateFacts;
    ScreenedForward(s.facts, u);
    if AggregateFacts(s.facts, u).Ok? {
      AggregateForward(s.facts, u);
    }
  }

  lemma CorrelatedKeeps(s: State, u: Update, reason: ConflictReason)
    requires Sound(s) && AggregateFacts(s.facts, u).Ok?
    requires ApplyCorrelated(Screened(s.facts, u).0, AggregateFacts(s.facts, u).value, u, s.operations).Ok?
    ensures var applied := AggregateFacts(s.facts, u).value;
      var g := ApplyCorrelated(Screened(s.facts, u).0, applied, u, s.operations).value.0;
      && Keeps(applied, g)
      && (Grounds(s, u, reason) && reason in {UncorrelatedOutcome, ConflictingDelta} ==>
            Claimed(g, u, reason) && g.reconciliationRequired)
  {
    hide AggregateFacts, Screened, PlanOutcome, Candidates, Candidate, Correlates, DeltaMatches, RetainObservation,
      Claimed,
      ContentOf, KnownReplay, Sound, Unique, ClaimsTheImpossible, NewEvent;
    var applied := AggregateFacts(s.facts, u).value;
    var f := Screened(s.facts, u).0;
    ScreenedBounded(s, u);
    if u.OutcomePart().Some? {
      var c, o := u.correlated.value, u.OutcomePart().value;
      UniqueIsOneCandidate(s, u, f);
      RetainClaims(applied, u, UncorrelatedOutcome);
      RetainClaims(applied, u, ConflictingDelta);
      if |Candidates(f, c, o, s.operations)| == 1 {
        var i := CandidateIndex(f, c, o, s.operations);
        CorrelatesIsCandidate(s, u, f, s.operations[i]);
        assert s.operations[i] in s.operations;
        if DeltaMatches(u, s.operations[i], o) {
          OutcomeKeeps(applied, s.operations[i], o, s.operations);
        }
      }
    }
  }

  lemma NewEvidenceKeeps(s: State, u: Update, record: Option<ReplayRecord>, reason: ConflictReason)
    requires Sound(s) && PlanNewEvidence(s.facts, u, record, s.operations).Ok?
    requires Grounds(s, u, reason) && reason !in {ConflictingIdentity, FinancialConstraints}
    ensures var g := PlanNewEvidence(s.facts, u, record, s.operations).value.facts;
      Claimed(g, u, reason) && g.reconciliationRequired
  {
    hide AggregateFacts, Screened, ApplyCorrelated, Grounds, Claimed, Replaced, AnyActiveRefund, Sound, FactsBounded;
    var applied := AggregateFacts(s.facts, u).value;
    var screened := Screened(s.facts, u).0;
    var correlated := ApplyCorrelated(screened, applied, u, s.operations).value.0;
    SoundBounded(s);
    AggregateKeeps(s.facts, u);
    CorrelatedKeeps(s, u, reason);
    if reason in {UnresolvedDelta, AmbiguousCancellation, ConflictingExternalId} {
      ScreenedClaims(s, u, reason);
      ClaimStays(screened, applied, u, reason);
      ClaimStays(applied, correlated, u, reason);
    }
    var g := PlanNewEvidence(s.facts, u, record, s.operations).value.facts;
    ClaimStays(correlated, g, u, reason);
  }

  /** Whatever part of an accepted observation cannot be applied is retained with its reason and
      requires reconciliation, and is kept over every run that follows. */
  lemma ObservedEvidenceIsKept(s: State, u: Update, reason: ConflictReason, commands: seq<Command>)
    requires Sound(s) && StepObserve(s, Some(u)).Ok? && Grounds(s, u, reason)
    ensures var t := StepObserve(s, Some(u)).value;
      && t.facts.reconciliationRequired
      && Claimed(t.facts, u, reason)
      && Claimed(Run(t, commands).facts, u, reason)
  {
    hide PlanNewEvidence, Sound, Develops, Claimed, Run, FinanciallyPossible, KnownReplay, ContentOf, RetainObservation,
      ClaimsTheImpossible, Replaced, Unique, FactsBounded, ObservationValid;
    var t := StepObserve(s, Some(u)).value;
    SoundBounded(s);
    ImpossibleMeansClaimed(s.facts, u);
    RetainClaims(s.facts, u, ConflictingIdentity);
    RetainClaims(s.facts, u, FinancialConstraints);
    if reason !in {ConflictingIdentity, FinancialConstraints} {
      NewEvidenceKeeps(s, u, ReplayFor(s.facts, u), reason);
    }
    ObserveStep(s, Some(u));
    RunDevelops(t, commands);
    ConflictsStay(t, Run(t, commands));
    ClaimStays(t.facts, Run(t, commands).facts, u, reason);
  }

  lemma ConflictsStay(s: State, t: State)
    requires Develops(s, t)
    ensures s.facts.observationConflicts <= t.facts.observationConflicts
  {
  }

  // ---- releases and refund markers ----

  /** A release scoped to the authorization never fails for want of a hold, whatever totals come with
      it, and leaves none: only its fraud event, if any, can refuse it. */
  lemma ScopedReleaseAcknowledged(f: PaymentFacts, u: Update)
    requires FactsBounded(f) && FinanciallyPossible(f, u) && u.ScopedRelease()
    ensures ApplyToFacts(f, u).Ok? <==> ApplyFraudEvent(ViewOf(f), u).Ok?
    ensures ApplyToFacts(f, u).Ok? ==> ApplyToFacts(f, u).value.remainingAuthorization == 0.0
  {
    var update := WithoutStaleHold(f, u);
    ReleaseTotals(f, u);
    var v1 := ApplyCaptureTotal(ViewOf(f), update).value;
    var v2 := ApplyRefundTotal(v1, update).value;
    ReleaseRemains(v2, update);
    hide ApplyCaptureTotal, ApplyRefundTotal, WithoutStaleHold, ApplyUpdate, ApplyFraudEvent;
    assert ApplyToView(ViewOf(f), update) == ApplyUpdate(v2, LastUpdate(v2, update));
    SameFraud(ViewOf(f), v2, u, update);
    if ApplyToFacts(f, u).Ok? {
      AppliedAuthorization(f, u);
    }
  }

  lemma CaptureTotalApplies(v: View, u: Update)
    requires Bounded(v) && (u.paidAmount.Some? ==> 0.0 <= u.paidAmount.value <= v.amountRequired)
    ensures ApplyCaptureTotal(v, u).Ok?
    ensures var w := ApplyCaptureTotal(v, u).value;
      && Bounded(w)
      && w.amountRequired == v.amountRequired
      && w.amountPaid == Max(v.amountPaid, u.paidAmount.GetOr(v.amountPaid))
      && w.fraudStatus == v.fraudStatus
  {
    hide ProjectStatus;
  }

  lemma RefundTotalApplies(v: View, u: Update)
    requires Bounded(v) && u.paymentEvent != Some(RefundConfirmed)
    requires u.refundedAmount.Some? ==> 0.0 <= u.refundedAmount.value <= v.amountPaid
    ensures ApplyRefundTotal(v, u).Ok?
    ensures var w := ApplyRefundTotal(v, u).value;
      && Bounded(w)
      && w.amountRequired == v.amountRequired
      && w.amountPaid == v.amountPaid
      && w.fraudStatus == v.fraudStatus
  {
    hide ProjectStatus;
  }

  /** The totals of a possible release apply, and its lock claim fits what they leave. */
  lemma ReleaseTotals(f: PaymentFacts, u: Update)
    requires FactsBounded(f) && FinanciallyPossible(f, u) && u.ScopedRelease()
    ensures var update := WithoutStaleHold(f, u);
      && update.ScopedRelease() && update.fraudEvent == u.fraudEvent
      && ApplyCaptureTotal(ViewOf(f), update).Ok?
      && var v1 := ApplyCaptureTotal(ViewOf(f), update).value;
      && ApplyRefundTotal(v1, update).Ok?
      && var v2 := ApplyRefundTotal(v1, update).value;
      && Bounded(v2)
      && v2.fraudStatus == f.fraudStatus
      && (update.lockedAmount.Some? ==> 0.0 < update.lockedAmount.value <= v2.amountRequired - v2.amountPaid)
  {
    hide ApplyCaptureTotal, ApplyRefundTotal;
    var update := WithoutStaleHold(f, u);
    CaptureTotalApplies(ViewOf(f), update);
    RefundTotalApplies(ApplyCaptureTotal(ViewOf(f), update).value, update);
  }

  lemma ReleaseRemains(v: View, u: Update)
    requires Bounded(v) && u.ScopedRelease()
    requires u.lockedAmount.Some? ==> 0.0 < u.lockedAmount.value <= v.amountRequired - v.amountPaid
    ensures ApplyUpdate(v, LastUpdate(v, u)).Ok? <==> ApplyFraudEvent(v, u).Ok?
  {
    hide ProjectStatus;
  }

  lemma SameFraud(v: View, w: View, u: Update, update: Update)
    requires v.fraudStatus == w.fraudStatus && u.fraudEvent == update.fraudEvent
    ensures ApplyFraudEvent(v, u).Ok? <==> ApplyFraudEvent(w, update).Ok?
  {
  }

  /** A decision about an ended operation keeps the marker of a pending refund that it did not itself
      complete: such work may have no local reservation. */
  lemma MarkerSurvivesDecision(s: State, id: string, d: Decision, op: OperationRecord, f: PaymentFacts)
    requires Sound(s) && StepResolve(s, id, d, op, f).Ok? && s.facts.status.RefundStarted?
    requires IndexOf(s.operations, id).Some? && s.operations[IndexOf(s.operations, id).value].state.Terminal()
    requires op.operationType.CancelRefund? ==>
      forall k :: 0 <= k < |s.operations| && op.Cancels(s.operations[k]) ==> !s.operations[k].IsActive()
    ensures StepResolve(s, id, d, op, f).value.facts.status.RefundStarted?
  {
    hide StepResolve, Sound, OutcomeEffect, Forward, RecordSound, FactsForward, LaterIntent;
    var i := ResolveCases(s, id, d, op, f);
    if FindDecision(s.operations[i].resolutions, d.resolutionId).None? {
      DecidedForward(s, i, d);
    }
  }
}
