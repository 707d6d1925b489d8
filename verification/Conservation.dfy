/** What each repository call can do to money: nothing, a new reservation, or one settlement. */
module Conservation {
  import opened Wrappers
  import opened Records
  import opened StateEngine
  import opened RefundTotal
  import opened Rules
  import opened Resolution
  import opened Effects
  import opened System
  import opened History
  import opened Steps
  import opened Decisions
  import opened Sums
  import opened Settlements

  // ---- the money of one settling call ----

  /** A call that records an outcome: the operation `i`, as the planner saw it (`op`), against the
      facts `mid` left by the aggregate part of the evidence. */
  ghost predicate Settling(s: State, i: nat, mid: PaymentFacts, op: OperationRecord, o: Outcome, plan: OutcomePlan,
                           t: State) {
    && Sound(s)
    && FactsForward(s.facts, mid)
    && OneSettled(s.operations, i, t.operations)
    && SameIntent(s.operations[i], op)
    && OutcomeEffect(mid, op, o, s.operations, plan)
    && t.operations[i].state == plan.operation.state
    && t.operations[i].settledAmount == plan.operation.settledAmount
    && SameMoney(plan.facts, t.facts)
    && (op == s.operations[i] || !plan.operation.reconciliationRequired)
    && (op.state.Terminal() ==> op.state == s.operations[i].state && op.settledAmount == s.operations[i].settledAmount)
    && (Confirmed(t.operations[i]) != Confirmed(s.operations[i]) && op.operationType.Charge? ==> i == |s.operations| - 1)
  }

  /** What such a call does to captured and refunded money. */
  ghost predicate Moves(s: State, i: nat, mid: PaymentFacts, op: OperationRecord, t: State)
    requires i < |s.operations| == |t.operations|
  {
    var amount := Confirmed(t.operations[i]);
    || (&& t.facts.capturedFunds == mid.capturedFunds
        && t.facts.refundedFunds == mid.refundedFunds
        && (MovesMoney(op) ==> Confirmed(t.operations[i]) == Confirmed(s.operations[i])))
    || (&& op.operationType.Charge?
        && 0.0 < amount
        && t.facts.capturedFunds == Max(mid.capturedFunds, s.operations[i].startingCaptured + amount)
        && t.facts.refundedFunds == mid.refundedFunds
        && (i == |s.operations| - 1 || amount == Confirmed(s.operations[i])))
    || (&& op.operationType.StartRefund?
        && 0.0 < amount
        && t.facts.capturedFunds == mid.capturedFunds
        && t.facts.refundedFunds == Max(mid.refundedFunds, ConfirmedRefundTotal(op, amount, s.operations)))
  }

  lemma SettlingMoves(s: State, i: nat, mid: PaymentFacts, op: OperationRecord, o: Outcome, plan: OutcomePlan, t: State)
    requires Settling(s, i, mid, op, o, plan, t)
    ensures Moves(s, i, mid, op, t)
  {
    hide Sound, ConfirmedRefundTotal, FindRefund, Replaced, AnyActiveRefund, CancellationSucceeded, WithPaid,
      FactsBounded,
      FactsForward, OutcomeFrame, CompletedTarget;
  }

  /** An outcome recorded for a retained operation is such a call. */
  lemma OutcomeSettles(s: State, i: nat, mid: PaymentFacts, o: Outcome, attempt: Option<int>, g: PaymentFacts)
    requires Sound(s) && i < |s.operations| && FactsForward(s.facts, mid)
    requires PlanOutcome(mid, s.operations[i], o, s.operations, attempt).Ok?
    requires var plan := PlanOutcome(mid, s.operations[i], o, s.operations, attempt).value;
      FactsForward(s.facts, g) && SameMoney(plan.facts, g) && RecordSound(g, plan.operation)
    ensures var plan := PlanOutcome(mid, s.operations[i], o, s.operations, attempt).value;
      var t := Committed(s, g, [plan.operation] + plan.relatedOperations);
      Settling(s, i, mid, s.operations[i], o, PlanEvidence(mid, s.operations[i], o, s.operations).value, t)
  {
    hide PlanEvidence, OutcomeEffect, Replaced, Without;
    var op := s.operations[i];
    var inner := PlanEvidence(mid, op, o, s.operations).value;
    var plan := PlanOutcome(mid, op, o, s.operations, attempt).value;
    OutcomeDevelops(s, i, mid, o, attempt);
    StillSound(s.facts, mid, op);
    EvidenceEffect(mid, op, o, s.operations);
    CommitDevelops(s, i, plan.operation, plan.relatedOperations, g);
    CommitSettles(s, i, plan.operation, plan.relatedOperations, g);
    if op.operationType.Charge? && Confirmed(inner.operation) != Confirmed(op) {
      ChargeSettlesActive(mid, op, o, s.operations, inner);
      HoldingChargeIsLast(s, i);
    }
  }

  /** Nothing is ever reserved after a charge that still holds the payment. */
  lemma HoldingChargeIsLast(s: State, i: nat)
    requires Sound(s) && i < |s.operations|
    requires s.operations[i].IsActive() && s.operations[i].operationType.Charge?
    ensures i == |s.operations| - 1
  {
    var last := s.operations[|s.operations| - 1];
    assert last.Cancels(s.operations[i]) || i == |s.operations| - 1;
  }

  /** An ordinary outcome settles a charge only while it is active. */
  lemma ChargeSettlesActive(f: PaymentFacts, op: OperationRecord, o: Outcome, operations: seq<OperationRecord>,
                            plan: OutcomePlan)
    requires OutcomeEffect(f, op, o, operations, plan) && op.operationType.Charge?
    requires Confirmed(plan.operation) != Confirmed(op)
    ensures op.IsActive()
  {
    hide SettledMoney, CompletedTarget, OutcomeFrame, CancellationSucceeded, AnyActiveRefund, Replaced;
  }

  /** Only the committed operation can change what it confirms. */
  lemma CommitSettles(s: State, i: nat, final: OperationRecord, related: seq<OperationRecord>, g: PaymentFacts)
    requires Sound(s) && RelatedTo(s.operations, i, related)
    requires Forward(s.operations[i], final) && RecordSound(g, final) && FactsForward(s.facts, g)
    ensures OneSettled(s.operations, i, Committed(s, g, [final] + related).operations)
    ensures Committed(s, g, [final] + related).operations[i] == final
  {
    hide Replaced;
    CommitDevelops(s, i, final, related, g);
    var after := Committed(s, g, [final] + related).operations;
    forall n | 0 <= n < |s.operations|
      ensures SameIntent(s.operations[n], after[n])
      ensures n != i ==> Confirmed(s.operations[n]) == Confirmed(after[n])
    {
      assert Forward(s.operations[n], after[n]);
      if related != [] {
        var k :| CompletesTarget(s.operations, i, k, related);
        assert n != k ==> s.operations[n].operationId != s.operations[k].operationId;
      }
    }
    assert RecordSound(s.facts, s.operations[i]);
  }

  lemma DecisionSettles(s: State, i: nat, d: Decision, g: PaymentFacts)
    requires Sound(s) && Decidable(s, i, d)
    requires FactsForward(s.facts, g) && SameMoney(DecidedPlan(s, i, d).facts, g) && RecordSound(g, DecidedRecord(s, i, d))
    ensures var t := Committed(s, g, [DecidedRecord(s, i, d)] + DecidedPlan(s, i, d).relatedOperations);
      Settling(s, i, s.facts, Reopened(s.operations[i], d.outcome), d.outcome, DecidedPlan(s, i, d), t)
  {
    hide PlanOutcome, OutcomeEffect, Replaced, FindDecision, LaterIntent;
    var op := s.operations[i];
    FactsForwardReflexive(s);
    DecidedForward(s, i, d);
    ReopenedSound(s.facts, op, d);
    CommitSettles(s, i, DecidedRecord(s, i, d), DecidedPlan(s, i, d).relatedOperations, g);
    if op.operationType.Charge? && Confirmed(DecidedRecord(s, i, d)) != Confirmed(op) {
      if op.IsActive() {
        HoldingChargeIsLast(s, i);
      } else if op.state.Rejected? || ChangesSettlement(op, d.outcome) {
        NoLaterIsLast(s, i);
      } else {
        ChargeSettlesActive(s.facts, Reopened(op, d.outcome), d.outcome, s.operations, DecidedPlan(s, i, d));
      }
    }
  }

  lemma NoLaterIsLast(s: State, i: nat)
    requires Sound(s) && i < |s.operations| && !LaterIntent(s.operations[i], s.operations)
    ensures i == |s.operations| - 1
  {
    var last := s.operations[|s.operations| - 1];
    assert last in s.operations;
  }

  // ---- the three kinds of call ----

  datatype Kind =
    | Quiet
    | Appends(reserved: OperationRecord)
    | Settles(i: nat, mid: PaymentFacts, op: OperationRecord, o: Outcome, plan: OutcomePlan)

  /** The aggregate capture total a call claims, if any; isolated increments claim none. */
  function ClaimedCapture(c: Command): Option<Money> {
    if c.Observe? && c.update.Some? && !c.update.value.DeltaOnly() then c.update.value.paidAmount else None
  }

  function ClaimedRefund(c: Command): Option<Money> {
    if c.Observe? && c.update.Some? && !c.update.value.DeltaOnly() then c.update.value.refundedAmount else None
  }

  /** The outcome a call carries about some operation. */
  function CarriedOutcome(c: Command): Option<Outcome> {
    match c
    case RecordOutcome(_, o, _) => Some(o)
    case Resolve(_, d, _, _) => Some(d.outcome)
    case Observe(Some(u)) => u.OutcomePart()
    case _ => None
  }

  /** The operations the outcome of a call may be about. */
  predicate About(s: State, c: Command, r: OperationRecord) {
    match c
    case RecordOutcome(id, _, _) => r.operationId == id
    case Resolve(id, _, _, _) => r.operationId == id
    case Observe(Some(u)) => u.OutcomePart().Some? && Candidate(s.facts, u.correlated.value, u.OutcomePart().value, r)
    case _ => false
  }

  /** Totals grow no further than the aggregate claims of the call. */
  ghost predicate WithinClaims(f: PaymentFacts, g: PaymentFacts, c: Command) {
    && f.capturedFunds <= g.capturedFunds <= Max(f.capturedFunds, ClaimedCapture(c).GetOr(f.capturedFunds))
    && f.refundedFunds <= g.refundedFunds <= Max(f.refundedFunds, ClaimedRefund(c).GetOr(f.refundedFunds))
  }

  ghost predicate SameSettlements(before: seq<OperationRecord>, after: seq<OperationRecord>) {
    && |before| == |after|
    && (forall n :: 0 <= n < |before| ==> SameIntent(before[n], after[n]) && Confirmed(before[n]) == Confirmed(after[n]))
  }

  ghost predicate Behaves(s: State, c: Command, t: State, kind: Kind) {
    match kind
    case Quiet => SameSettlements(s.operations, t.operations) && WithinClaims(s.facts, t.facts, c)
    case Appends(r) =>
      && t.operations == s.operations + [r]
      && r.state.Reserved?
      && r.startingCaptured == s.facts.capturedFunds
      && r.startingRefunded == s.facts.refundedFunds
      && SameMoney(s.facts, t.facts)
    case Settles(i, mid, op, o, plan) =>
      && Settling(s, i, mid, op, o, plan, t)
      && WithinClaims(s.facts, mid, c)
      && CarriedOutcome(c) == Some(o)
      && About(s, c, s.operations[i])
  }

  lemma OutcomeKind(s: State, id: string, o: Outcome, attempt: Option<int>) returns (kind: Kind)
    requires Sound(s) && StepOutcome(s, id, o, attempt).Ok?
    ensures Behaves(s, RecordOutcome(id, o, attempt), StepOutcome(s, id, o, attempt).value, kind)
  {
    hide PlanOutcome, PlanEvidence, Sound, Settling, Replaced, RelatedTo;
    var i := IndexOf(s.operations, id).value;
    var plan := PlanOutcome(s.facts, s.operations[i], o, s.operations, attempt).value;
    FactsForwardReflexive(s);
    OutcomeDevelops(s, i, s.facts, o, attempt);
    OutcomeSettles(s, i, s.facts, o, attempt, plan.facts);
    InnerPlan(s.facts, s.operations[i], o, s.operations, attempt);
    kind := Settles(i, s.facts, s.operations[i], o, PlanEvidence(s.facts, s.operations[i], o, s.operations).value);
  }

  lemma InnerPlan(f: PaymentFacts, op: OperationRecord, o: Outcome, operations: seq<OperationRecord>,
                  attempt: Option<int>)
    requires PlanOutcome(f, op, o, operations, attempt).Ok?
    ensures PlanEvidence(f, op, o, operations).Ok?
  {
    hide PlanEvidence;
  }

  lemma QuietOperations(s: State, t: State)
    requires Sound(s) && t.operations == s.operations
    ensures SameSettlements(s.operations, t.operations)
  {
  }

  lemma ObserveKind(s: State, u: Option<Update>) returns (kind: Kind)
    requires Sound(s) && StepObserve(s, u).Ok?
    ensures Behaves(s, Observe(u), StepObserve(s, u).value, kind)
  {
    hide PlanObservation, PlanOutcome, PlanEvidence, AggregateFacts, Sound, Settling, MarkedRefund, Replaced,
      SameSettlements, Committed;
    var t := StepObserve(s, u).value;
    if u.None? {
      NoObservation(s);
      QuietOperations(s, t);
      return Quiet;
    }
    var i := ObserveCases(s, u.value);
    if i < 0 {
      AloneWithin(s, u.value, t);
      QuietOperations(s, t);
      return Quiet;
    }
    kind := CorrelatedKind(s, u.value, i, t);
  }

  lemma AloneWithin(s: State, u: Update, t: State)
    requires Sound(s) && ObservedAlone(s, u, t)
    ensures WithinClaims(s.facts, t.facts, Observe(Some(u)))
  {
    hide AggregateFacts, MarkedRefund;
    if AggregateFacts(s.facts, u).Ok? {
      AggregateForward(s.facts, u);
    }
  }

  lemma MarkedMoney(f: PaymentFacts, operations: seq<OperationRecord>)
    ensures SameMoney(f, MarkedRefund(f, operations))
  {
  }

  lemma CorrelatedKind(s: State, u: Update, i: nat, t: State) returns (kind: Kind)
    requires Sound(s) && CorrelatedAt(s, u, i)
    requires var plan := CorrelatedPlan(s, u, i);
      && t.operations == Replaced(s.operations, [plan.operation] + plan.relatedOperations)
      && t.facts == MarkedRefund(plan.facts, t.operations)
    ensures Behaves(s, Observe(Some(u)), t, kind)
  {
    hide PlanOutcome, PlanEvidence, AggregateFacts, Sound, FactsForward, RecordSound, Forward, Replaced, MarkedRefund,
      RelatedTo, OutcomeEffect;
    var mid := AggregateFacts(s.facts, u).value;
    var plan := CorrelatedPlan(s, u, i);
    var o := u.OutcomePart().value;
    AggregateForwardSound(s, u);
    AggregateWithin(s, u);
    OutcomeDevelops(s, i, mid, o, None);
    MarkedForward(s.facts, plan.facts, t.operations, plan.operation);
    MarkedMoney(plan.facts, t.operations);
    OutcomeSettles(s, i, mid, o, None, t.facts);
    InnerPlan(mid, s.operations[i], o, s.operations, None);
    kind := Settles(i, mid, s.operations[i], o, PlanEvidence(mid, s.operations[i], o, s.operations).value);
  }

  lemma AggregateWithin(s: State, u: Update)
    requires Sound(s) && AggregateFacts(s.facts, u).Ok?
    ensures WithinClaims(s.facts, AggregateFacts(s.facts, u).value, Observe(Some(u)))
  {
    hide AggregateFacts;
    AggregateForward(s.facts, u);
  }

  lemma ResolveKind(s: State, id: string, d: Decision, op: OperationRecord, f: PaymentFacts) returns (kind: Kind)
    requires Sound(s) && StepResolve(s, id, d, op, f).Ok?
    ensures Behaves(s, Resolve(id, d, op, f), StepResolve(s, id, d, op, f).value, kind)
  {
    hide StepResolve, Decidable, Sound, FactsForward, Forward, RecordSound, RelatedTo, OutcomeEffect, Settling,
      SameSettlements;
    var t := StepResolve(s, id, d, op, f).value;
    var i := ResolveCases(s, id, d, op, f);
    if FindDecision(s.operations[i].resolutions, d.resolutionId).Some? {
      AcknowledgedStep(s, i);
      QuietOperations(s, t);
      return Quiet;
    }
    var plan := DecidedPlan(s, i, d);
    DecidedForward(s, i, d);
    WithMarkerForward(s.facts, plan, s.operations[i], d, t.operations, t.facts, DecidedRecord(s, i, d));
    DecisionSettles(s, i, d, t.facts);
    kind := Settles(i, s.facts, Reopened(s.operations[i], d.outcome), d.outcome, plan);
  }

  lemma ReserveKind(s: State, intent: Intent) returns (kind: Kind)
    requires Sound(s) && StepReserve(s, intent).Ok?
    ensures Behaves(s, Reserve(intent), StepReserve(s, intent).value, kind)
  {
    var plan := PlanReservation(s.facts, s.operations, intent).value;
    kind := if plan.created then Appends(plan.operation) else Quiet;
  }

  lemma ClaimKind(s: State, id: string, attempt: int, now: Time, until: Option<Time>, scope: Option<string>)
    requires Sound(s) && StepClaim(s, id, attempt, now, until, scope).Ok?
    ensures Behaves(s, Claim(id, attempt, now, until, scope), StepClaim(s, id, attempt, now, until, scope).value, Quiet)
  {
    var i := IndexOf(s.operations, id).value;
    assert RecordSound(s.facts, s.operations[i]);
  }

  /** Every accepted call is of one of the three kinds. */
  lemma StepKind(s: State, c: Command) returns (kind: Kind)
    requires Sound(s) && Step(s, c).Ok?
    ensures Behaves(s, c, Step(s, c).value, kind)
  {
    hide StepObserve, StepReserve, StepClaim, StepOutcome, StepResolve, Sound, Behaves;
    match c
    case Observe(u) => kind := ObserveKind(s, u);
    case Reserve(intent) => kind := ReserveKind(s, intent);
    case Claim(id, attempt, now, until, scope) =>
      ClaimKind(s, id, attempt, now, until, scope);
      kind := Quiet;
    case RecordOutcome(id, o, attempt) => kind := OutcomeKind(s, id, o, attempt);
    case RecordFailure(id, evidence) =>
      FailureKind(s, id, evidence);
      kind := Quiet;
    case Resolve(id, d, op, f) => kind := ResolveKind(s, id, d, op, f);
  }

  lemma FailureKind(s: State, id: string, evidence: RecoveryEvidence)
    requires Sound(s) && StepFailure(s, id, evidence).Ok?
    ensures Behaves(s, RecordFailure(id, evidence), StepFailure(s, id, evidence).value, Quiet)
  {
  }
}
