/** Where the marker of a pending refund comes from: an active refund of the history, or one kind of
    observation. Without such observations the status is fixed by the history and the money. */
module Marker {
  import opened Wrappers
  import opened Records
  import opened StateEngine
  import opened Rules
  import opened Resolution
  import opened Effects
  import opened System
  import opened History
  import opened Steps
  import opened Decisions
  import opened Coherence
  import opened Evidence

  /** Some refund of the history accounts for a `RefundStarted` status. */
  ghost predicate MarkerBacked(s: State) {
    s.facts.status == RefundStarted ==> AnyActiveRefund(s.operations)
  }

  /** An observation whose aggregate part reports a refund request. */
  predicate RequestsRefund(u: Update) {
    u.paymentEvent == Some(RefundRequested) && !u.DeltaOnly() && u.OutcomePart().None?
  }

  /** A refund request that is new and possible, while the history has no active refund. */
  ghost predicate RequestedElsewhere(s: State, c: Command) {
    && c.Observe?
    && c.update.Some?
    && RequestsRefund(c.update.value)
    && NewEvent(s, c.update.value)
    && !ClaimsTheImpossible(s.facts, c.update.value)
    && !AnyActiveRefund(s.operations)
  }

  // ---- active refunds through a commit ----

  lemma ActiveAt(operations: seq<OperationRecord>, n: nat)
    requires n < |operations| && operations[n].ActiveRefund()
    ensures AnyActiveRefund(operations)
  {
  }

  /** An active refund that the commit does not touch is still there. */
  lemma StaysActive(s: State, i: nat, final: OperationRecord)
    requires Sound(s) && i < |s.operations| && AnyActiveRefund(s.operations) && SameIntent(s.operations[i], final)
    requires s.operations[i].ActiveRefund() ==> final.ActiveRefund()
    ensures AnyActiveRefund(Replaced(s.operations, [final] + []))
  {
    var n :| 0 <= n < |s.operations| && s.operations[n].ActiveRefund();
    var t := Replaced(s.operations, [final] + []);
    ReplacedAt(s.operations, final, [], n);
    assert n != i ==> s.operations[n].operationId != final.operationId;
    ActiveAt(t, n);
  }

  /** What the planner saw as active is active in the committed history. */
  lemma PlannedRefundsCommitted(s: State, i: nat, after: OperationRecord, final: OperationRecord,
                                related: seq<OperationRecord>)
    requires Sound(s) && RelatedTo(s.operations, i, related)
    requires SameIntent(s.operations[i], after) && SameIntent(after, final) && final.state == after.state
    requires AnyActiveRefund(Replaced(s.operations, [after] + related) + [after])
    ensures AnyActiveRefund(Replaced(s.operations, [final] + related))
  {
    var seen := Replaced(s.operations, [after] + related);
    var t := Replaced(s.operations, [final] + related);
    var n :| 0 <= n < |seen + [after]| && (seen + [after])[n].ActiveRefund();
    var k := if n < |seen| then n else i;
    ReplacedAt(s.operations, after, related, k);
    ReplacedAt(s.operations, final, related, k);
    if related != [] {
      var m :| CompletesTarget(s.operations, i, m, related);
      assert s.operations[m].operationId != s.operations[i].operationId;
    }
    ActiveAt(t, k);
  }

  lemma RefundOperationCaptured(s: State, i: nat)
    requires Sound(s) && i < |s.operations| && RefundOperation(s.operations[i])
    ensures 0.0 < s.facts.capturedFunds
  {
    if s.operations[i].operationType.StartRefund? {
      CapturedWhenRefunding(s, i);
    } else {
      var j :| 0 <= j < i && s.operations[i].Cancels(s.operations[j]);
      CapturedWhenRefunding(s, j);
    }
  }

  // ---- outcomes ----

  /** A marker left by an outcome is backed by the history that the outcome leaves. */
  lemma OutcomeBacked(s: State, i: nat, mid: PaymentFacts, op: OperationRecord, o: Outcome, plan: OutcomePlan,
                      final: OperationRecord)
    requires Sound(s) && i < |s.operations| && RelatedTo(s.operations, i, plan.relatedOperations)
    requires SameIntent(s.operations[i], op) && OutcomeEffect(mid, op, o, s.operations, plan)
    requires FactsForward(s.facts, mid) && (mid.status == RefundStarted ==> AnyActiveRefund(s.operations))
    requires final.state == plan.operation.state && SameIntent(op, final)
    requires op.state.Terminal() || plan.operation.reconciliationRequired ==> op.state == s.operations[i].state
    ensures plan.facts.status == RefundStarted ==>
      AnyActiveRefund(Replaced(s.operations, [final] + plan.relatedOperations))
  {
    hide Sound, RelatedTo, ConfirmedRefundTotal, WithPaid, FindRefund, CancellationSucceeded, Replaced,
      AnyActiveRefund, FactsBounded, OutcomeFits, ClaimedAmount;
    if plan.facts.status == RefundStarted {
      if Retained(mid, op, plan.facts, plan.operation, plan.relatedOperations) || !RefundOperation(op) {
        StaysActive(s, i, final);
      } else {
        RefundOperationCaptured(s, i);
        PlannedRefundsCommitted(s, i, plan.operation, final, plan.relatedOperations);
      }
    }
  }

  lemma RecordBackedMarker(s: State, id: string, o: Outcome, attempt: Option<int>)
    requires Sound(s) && MarkerBacked(s) && StepOutcome(s, id, o, attempt).Ok?
    ensures MarkerBacked(StepOutcome(s, id, o, attempt).value)
  {
    hide PlanEvidence, Sound, OutcomeEffect, Without, RelatedTo, Replaced, FactsForward, RecordSound, Forward,
      AnyActiveRefund;
    var i := IndexOf(s.operations, id).value;
    var op := s.operations[i];
    var inner := PlanEvidence(s.facts, op, o, s.operations).value;
    var plan := PlanOutcome(s.facts, op, o, s.operations, attempt).value;
    FactsForwardReflexive(s);
    SoundBounded(s);
    EvidenceEffect(s.facts, op, o, s.operations);
    EffectIntent(s.facts, op, o, s.operations, inner);
    OutcomeDevelops(s, i, s.facts, o, attempt);
    OutcomeBacked(s, i, s.facts, op, o, inner, plan.operation);
  }

  /** A decision keeps a marker only while another record backs it. */
  lemma ResolveBackedMarker(s: State, id: string, d: Decision, expected: OperationRecord, f: PaymentFacts)
    requires Sound(s) && MarkerBacked(s) && StepResolve(s, id, d, expected, f).Ok?
    ensures MarkerBacked(StepResolve(s, id, d, expected, f).value)
  {
    hide StepResolve, Decidable, Sound, OutcomeEffect, RelatedTo, Replaced, FactsForward, RecordSound, Forward,
      AnyActiveRefund;
    var t := StepResolve(s, id, d, expected, f).value;
    var i := ResolveCases(s, id, d, expected, f);
    if FindDecision(s.operations[i].resolutions, d.resolutionId).Some? {
      AcknowledgedStep(s, i);
    } else {
      var op := s.operations[i];
      var r := Reopened(op, d.outcome);
      var plan := DecidedPlan(s, i, d);
      var final := DecidedRecord(s, i, d);
      DecidedForward(s, i, d);
      RecordSoundAt(s, i);
      ReopenedSound(s.facts, op, d);
      EffectIntent(s.facts, r, d.outcome, s.operations, plan);
      DecidedQuiet(s, i, d);
      FactsForwardReflexive(s);
      OutcomeBacked(s, i, s.facts, r, d.outcome, plan, final);
      if op.state.Terminal() && s.facts.status == RefundStarted && plan.relatedOperations == [] {
        StaysActive(s, i, final);
      }
    }
  }

  // ---- observations ----

  lemma ScreenedEvent(f: PaymentFacts, u: Update)
    ensures Screened(f, u).0.status == f.status
    ensures Screened(f, u).1.paymentEvent == Some(RefundRequested) <==> RequestsRefund(u)
  {
    hide ContentOf;
  }

  lemma AggregateMarks(f: PaymentFacts, u: Update)
    requires AggregateFacts(f, u).Ok?
    ensures RequestsRefund(u) ==> AggregateFacts(f, u).value.status == RefundStarted
    ensures !RequestsRefund(u) && AggregateFacts(f, u).value.status == RefundStarted ==> f.status == RefundStarted
  {
    hide Screened, ApplyToFacts;
    ScreenedEvent(f, u);
    AppliedMarker(Screened(f, u).0, Screened(f, u).1);
  }

  lemma CorrelatedBacked(s: State, u: Update, i: nat, t: State)
    requires Sound(s) && MarkerBacked(s) && CorrelatedAt(s, u, i)
    requires var plan := CorrelatedPlan(s, u, i);
      && t.operations == Replaced(s.operations, [plan.operation] + plan.relatedOperations)
      && t.facts == MarkedRefund(plan.facts, t.operations)
    ensures MarkerBacked(t)
  {
    hide PlanEvidence, Sound, OutcomeEffect, AggregateFacts, RelatedTo, Replaced, FactsForward, RecordSound, Forward,
      AnyActiveRefund, Candidate, DeltaMatches, FactsBounded;
    var mid := AggregateFacts(s.facts, u).value;
    var plan := CorrelatedPlan(s, u, i);
    var o := u.OutcomePart().value;
    ScreenedBounded(s, u);
    AggregateForwardSound(s, u);
    AggregateMarks(s.facts, u);
    EvidenceEffect(mid, s.operations[i], o, s.operations);
    EffectIntent(mid, s.operations[i], o, s.operations, plan);
    OutcomeDevelops(s, i, mid, o, None);
    OutcomeBacked(s, i, mid, s.operations[i], o, plan, plan.operation);
  }

  /** An observation that touches no operation leaves a marker that was there or that it requests. */
  lemma AloneBacked(s: State, u: Update, t: State)
    requires MarkerBacked(s) && ObservedAlone(s, u, t)
    ensures MarkerBacked(t) || (RequestsRefund(u) && !AnyActiveRefund(s.operations))
  {
    hide AggregateFacts, AnyActiveRefund, FactsForward;
    if AggregateFacts(s.facts, u).Ok? {
      AggregateMarks(s.facts, u);
    }
  }

  lemma KnownOrImpossibleKeepsStatus(s: State, u: Update)
    requires FactsBounded(s.facts) && StepObserve(s, Some(u)).Ok?
    requires !NewEvent(s, u) || ClaimsTheImpossible(s.facts, u)
    ensures StepObserve(s, Some(u)).value.facts.status == s.facts.status
    ensures StepObserve(s, Some(u)).value.operations == s.operations
  {
    hide PlanNewEvidence, FinanciallyPossible, ClaimsTheImpossible, KnownReplay, ContentOf, Replaced, FactsBounded;
    ReplacedNothing(s.operations);
    ImpossibleMeansClaimed(s.facts, u);
  }

  lemma NewRequestMarks(s: State, u: Update)
    requires FactsBounded(s.facts) && StepObserve(s, Some(u)).Ok? && RequestedElsewhere(s, Observe(Some(u)))
    ensures StepObserve(s, Some(u)).value.facts.status == RefundStarted
    ensures StepObserve(s, Some(u)).value.operations == s.operations
  {
    hide AggregateFacts, Screened, FinanciallyPossible, ClaimsTheImpossible, KnownReplay, ContentOf, Replaced,
      FactsBounded, AnyActiveRefund, ObservationValid;
    ReplacedNothing(s.operations);
    ImpossibleMeansClaimed(s.facts, u);
    AggregateMarks(s.facts, u);
  }

  lemma ObserveBacked(s: State, u: Option<Update>)
    requires Sound(s) && MarkerBacked(s) && StepObserve(s, u).Ok?
    ensures !MarkerBacked(StepObserve(s, u).value) <==> RequestedElsewhere(s, Observe(u))
  {
    hide StepObserve, Sound, Replaced, AnyActiveRefund, CorrelatedAt, RequestsRefund, NewEvent, ClaimsTheImpossible,
      FactsBounded, MarkedRefund, ObservedAlone;
    SoundBounded(s);
    if u.None? {
      NoObservation(s);
    } else {
      var t := StepObserve(s, u).value;
      var i := ObserveCases(s, u.value);
      if RequestedElsewhere(s, Observe(u)) {
        NewRequestMarks(s, u.value);
      } else if i >= 0 {
        CorrelatedBacked(s, u.value, i, t);
      } else {
        AloneBacked(s, u.value, t);
        if !NewEvent(s, u.value) || ClaimsTheImpossible(s.facts, u.value) {
          KnownOrImpossibleKeepsStatus(s, u.value);
        }
      }
    }
  }

  // ---- the other calls ----

  lemma ReserveBackedMarker(s: State, intent: Intent)
    requires MarkerBacked(s) && StepReserve(s, intent).Ok?
    ensures MarkerBacked(StepReserve(s, intent).value)
  {
    var t := StepReserve(s, intent).value;
    var plan := PlanReservation(s.facts, s.operations, intent).value;
    if t.facts.status == RefundStarted {
      if plan.created && plan.operation.operationType.StartRefund? {
        ActiveAt(t.operations, |s.operations|);
      } else {
        var n :| 0 <= n < |s.operations| && s.operations[n].ActiveRefund();
        ActiveAt(t.operations, n);
      }
    }
  }

  lemma UpdateBackedMarker(s: State, i: nat, final: OperationRecord)
    requires MarkerBacked(s) && i < |s.operations|
    requires s.operations[i].ActiveRefund() ==> final.ActiveRefund()
    ensures MarkerBacked(s.(operations := s.operations[i := final]))
  {
    var t := s.(operations := s.operations[i := final]);
    if t.facts.status == RefundStarted {
      var n :| 0 <= n < |s.operations| && s.operations[n].ActiveRefund();
      ActiveAt(t.operations, n);
    }
  }

  lemma ClaimBackedMarker(s: State, id: string, attempt: int, now: Time, until: Option<Time>, scope: Option<string>)
    requires MarkerBacked(s) && StepClaim(s, id, attempt, now, until, scope).Ok?
    ensures MarkerBacked(StepClaim(s, id, attempt, now, until, scope).value)
  {
    hide MarkerBacked;
    var i := IndexOf(s.operations, id).value;
    UpdateBackedMarker(s, i, PlanSubmission(s.facts, s.operations[i], attempt, now, until, scope).value.operation);
  }

  lemma FailureBackedMarker(s: State, id: string, evidence: RecoveryEvidence)
    requires MarkerBacked(s) && StepFailure(s, id, evidence).Ok?
    ensures MarkerBacked(StepFailure(s, id, evidence).value)
  {
    hide MarkerBacked;
    var i := IndexOf(s.operations, id).value;
    UpdateBackedMarker(s, i, PlanFailure(s.operations[i], evidence));
  }

  // ---- every call, every run ----

  /** An accepted call takes the backing from the marker exactly when it is a new, possible refund
      request observed while the history has no active refund. */
  lemma MarkerLosesBacking(s: State, c: Command)
    requires Sound(s) && MarkerBacked(s) && Step(s, c).Ok?
    ensures !MarkerBacked(Step(s, c).value) <==> RequestedElsewhere(s, c)
  {
    hide StepObserve, StepReserve, StepClaim, StepOutcome, StepFailure, StepResolve, Sound, MarkerBacked,
      RequestsRefund, NewEvent, ClaimsTheImpossible, AnyActiveRefund;
    match c
    case Observe(u) => ObserveBacked(s, u);
    case Reserve(intent) => ReserveBackedMarker(s, intent);
    case Claim(id, attempt, now, until, scope) => ClaimBackedMarker(s, id, attempt, now, until, scope);
    case RecordOutcome(id, o, attempt) => RecordBackedMarker(s, id, o, attempt);
    case RecordFailure(id, evidence) => FailureBackedMarker(s, id, evidence);
    case Resolve(id, d, op, f) => ResolveBackedMarker(s, id, d, op, f);
  }

  /** Where in a run the marker lost its backing. */
  lemma {:induction false} UnbackedMarkerHasOrigin(s: State, commands: seq<Command>) returns (k: nat)
    requires Sound(s) && MarkerBacked(s) && !MarkerBacked(Run(s, commands))
    ensures k < |commands|
    ensures var t := Run(s, commands[..k]);
      && MarkerBacked(t)
      && RequestedElsewhere(t, commands[k])
      && Step(t, commands[k]).Ok?
      && !MarkerBacked(After(t, commands[k]))
  {
    hide MarkerBacked, RequestedElsewhere, Sound, Develops, Step;
    if commands == [] {
      assert false;
    }
    var n := |commands| - 1;
    var rest := commands[..n];
    RunDevelops(s, rest);
    if MarkerBacked(Run(s, rest)) {
      k := n;
      if Step(Run(s, rest), commands[n]).Ok? {
        MarkerLosesBacking(Run(s, rest), commands[n]);
      }
    } else {
      k := UnbackedMarkerHasOrigin(s, rest);
      assert rest[..k] == commands[..k];
    }
  }

  /** A command that observes a refund request. */
  predicate ObservesRequest(c: Command) {
    c.Observe? && c.update.Some? && RequestsRefund(c.update.value)
  }

  /** In every run from coherent facts, an active refund shows in the status. Unless a refund request
      was observed, or the marker was unbacked from the start, it shows in no other state: the status
      is `RefundStarted` exactly while a refund is active, and otherwise captured money shows exactly
      itself. */
  lemma RunCoherent(s: State, commands: seq<Command>)
    requires Sound(s) && Coherent(s)
    ensures var t := Run(s, commands);
      && (AnyActiveRefund(t.operations) ==> t.facts.status == RefundStarted)
      && (t.facts.capturedFunds > 0.0 && t.facts.status != RefundStarted ==> t.facts.status == MoneyStatus(t.facts))
    ensures MarkerBacked(s) && (forall k :: 0 <= k < |commands| ==> !ObservesRequest(commands[k])) ==>
      var t := Run(s, commands);
      && (t.facts.status == RefundStarted <==> AnyActiveRefund(t.operations))
      && (t.facts.capturedFunds > 0.0 && !AnyActiveRefund(t.operations) ==> t.facts.status == MoneyStatus(t.facts))
  {
    hide AnyActiveRefund, Sound, Run, Step, After, NewEvent, ClaimsTheImpossible;
    CoherentRun(s, commands);
    if MarkerBacked(s) && !MarkerBacked(Run(s, commands)) {
      var k := UnbackedMarkerHasOrigin(s, commands);
      assert ObservesRequest(commands[k]);
    }
  }

  const REQUEST := EventUpdate(Some(RefundRequested))

  lemma RequestApplies(f: PaymentFacts)
    requires FactsBounded(f) && f.refundedFunds < f.capturedFunds
    ensures FinanciallyPossible(f, REQUEST) && AggregateFacts(f, REQUEST).Ok?
  {
    var v := ViewOf(f);
    assert Screened(f, REQUEST) == (f, REQUEST);
    assert ApplyCaptureTotal(v, REQUEST) == Ok(v) && ApplyRefundTotal(v, REQUEST) == Ok(v);
    assert LastUpdate(v, REQUEST) == REQUEST;
    assert ApplyUpdate(v, REQUEST).Ok?;
    hide ApplyUpdate, ApplyCaptureTotal, ApplyRefundTotal;
    assert ApplyToView(v, REQUEST) == ApplyUpdate(v, REQUEST);
  }

  /** While captured money is left to return, a refund request without an identity is accepted in any
      history, and marks the payment. */
  lemma RequestIsAccepted(s: State)
    requires FactsBounded(s.facts) && s.facts.refundedFunds < s.facts.capturedFunds
    ensures StepObserve(s, Some(REQUEST)).Ok?
    ensures var t := StepObserve(s, Some(REQUEST)).value;
      t.facts.status == RefundStarted && t.operations == s.operations
  {
    hide AggregateFacts, FinanciallyPossible, Replaced, AnyActiveRefund, FactsBounded, ContentOf;
    RequestApplies(s.facts);
    ReplacedNothing(s.operations);
    AggregateMarks(s.facts, REQUEST);
    assert ReplayFor(s.facts, REQUEST).None?;
    assert ObservationValid(REQUEST);
  }

  /** A paid payment without any operation. */
  function PaidPayment(): State {
    State(PaymentFacts("payment", 10.0, "backend", 10.0, 0.0, 0.0, Paid, None, FraudUnknown, "", false, map[], []), [], [])
  }

  /** A marker need not be backed: a refund request observed on a paid payment without operations
      leaves one, although every call keeps the status coherent. */
  lemma RequestLeavesUnbackedMarker()
    ensures var s := PaidPayment();
      && Initial(s) && Coherent(s) && MarkerBacked(s)
      && Step(s, Observe(Some(REQUEST))).Ok?
      && After(s, Observe(Some(REQUEST))).facts.status == RefundStarted
      && !AnyActiveRefund(After(s, Observe(Some(REQUEST))).operations)
  {
    hide StepObserve;
    var s := PaidPayment();
    RequestIsAccepted(s);
    assert Step(s, Observe(Some(REQUEST))) == StepObserve(s, Some(REQUEST));
  }
}
