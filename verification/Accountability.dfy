/** What only particular calls may do: revive a rejection, retire an outstanding response, clear a
    reconciliation requirement, grant a submission. */
module Accountability {
  import opened Wrappers
  import opened Records
  import opened StateEngine
  import opened RefundTotal
  import opened Rules
  import opened Resolution
  import opened Effects
  import opened System
  import opened History
  import opened Steps
  import opened Decisions
  import opened Conservation
  import opened Verdicts

  predicate Decides(c: Command, id: string) {
    c.Resolve? && c.resolvedId == id
  }

  /** The recorded response of one submission attempt, or an audited decision. */
  predicate Answers(c: Command, id: string, attempt: int) {
    Decides(c, id) || (c.RecordOutcome? && c.recordedId == id && c.responseAttempt == Some(attempt))
  }

  /** A rejected operation may still succeed: a cancelled refund turns out to have settled, or a
      decision corrects it while it is the latest intent. */
  ghost predicate Revives(s: State, c: Command, r: OperationRecord) {
    || (&& r.operationType.StartRefund?
        && CancellationSucceeded(r, s.operations)
        && CarriedOutcome(c).Some?
        && CarriedOutcome(c).value.state.Succeeded?
        && About(s, c, r))
    || (&& Decides(c, r.operationId)
        && c.decision.outcome.state.Succeeded?
        && !LaterIntent(r, s.operations))
  }

  /** A decision clears the payment's flag only on request and with no operation flagged. */
  ghost predicate Clears(c: Command, t: State) {
    && c.Resolve?
    && c.decision.clearPaymentReconciliation
    && forall r :: r in t.operations ==> !r.reconciliationRequired
  }

  /** A submission right: the first attempt of a reserved operation, which freezes its time, window
      and scope, or one more attempt of an uncertain one before its frozen deadline. */
  ghost predicate Grants(s: State, c: Command, a: OperationRecord, b: OperationRecord) {
    && c.Claim?
    && c.claimedId == a.operationId
    && c.expectedAttempt == a.submissionAttempts
    && b.submissionAttempts == a.submissionAttempts + 1
    && b.state.Submitting?
    && b.submissionAttempts in b.pendingResponseAttempts
    && !s.facts.reconciliationRequired && !a.reconciliationRequired
    && if a.submissionAttempts == 0
       then a.state.Reserved? && b.submittedAt == Some(c.now) && b.retryUntil == c.retryUntil && b.idempotencyScope == c.scope
       else (a.state.Unknown? || a.state.Submitting?) && a.retryUntil.Some? && c.now < a.retryUntil.value
  }

  /** The call `c` may turn the record `a` into `b`. */
  ghost predicate Accountable(s: State, c: Command, a: OperationRecord, b: OperationRecord) {
    && a.operationId == b.operationId
    && (a.state.Rejected? && b.state.Succeeded? ==> Revives(s, c, a))
    && (forall k :: k in a.pendingResponseAttempts ==> k in b.pendingResponseAttempts || Answers(c, a.operationId, k))
    && (a.reconciliationRequired && !b.reconciliationRequired ==> Decides(c, a.operationId))
    && (a.submissionAttempts != b.submissionAttempts ==> Grants(s, c, a, b))
  }

  ghost predicate AllAccountable(s: State, c: Command, t: State) {
    && |s.operations| <= |t.operations|
    && (forall n :: 0 <= n < |s.operations| ==> Accountable(s, c, s.operations[n], t.operations[n]))
    && (s.facts.reconciliationRequired && !t.facts.reconciliationRequired ==> Clears(c, t))
  }

  lemma CommitAccountable(s: State, c: Command, i: nat, final: OperationRecord, related: seq<OperationRecord>,
                          g: PaymentFacts)
    requires Sound(s) && RelatedTo(s.operations, i, related)
    requires Forward(s.operations[i], final) && RecordSound(g, final) && FactsForward(s.facts, g)
    requires Accountable(s, c, s.operations[i], final)
    ensures var t := Committed(s, g, [final] + related);
      |t.operations| == |s.operations|
      && forall n :: 0 <= n < |s.operations| ==> Accountable(s, c, s.operations[n], t.operations[n])
  {
    hide Replaced, Forward, RecordSound, FactsForward, Sound, CancellationSucceeded, LaterIntent;
    CommitDevelops(s, i, final, related, g);
    var t := Committed(s, g, [final] + related);
    forall n | 0 <= n < |s.operations|
      ensures Accountable(s, c, s.operations[n], t.operations[n])
    {
      if related != [] && n != i && related[0].operationId == s.operations[n].operationId {
        var k :| CompletesTarget(s.operations, i, k, related);
        SoundIds(s, n, k);
      }
    }
  }

  lemma SoundIds(s: State, n: int, k: int)
    requires Sound(s) && 0 <= n < |s.operations| && 0 <= k < |s.operations|
    requires s.operations[n].operationId == s.operations[k].operationId
    ensures n == k
  {
  }

  /** An outcome accounts for what it does to its operation. */
  lemma EffectAccountable(s: State, c: Command, f: PaymentFacts, op: OperationRecord, o: Outcome, plan: OutcomePlan)
    requires OutcomeEffect(f, op, o, s.operations, plan)
    requires CarriedOutcome(c) == Some(o) && About(s, c, op)
    ensures Accountable(s, c, op, plan.operation)
  {
    hide SettledMoney, CompletedTarget, StatusFollows, WithPaid, CancellationSucceeded, FactsBounded, LaterIntent;
  }

  lemma RetireAccountable(s: State, c: Command, op: OperationRecord, r: OperationRecord, attempt: int)
    requires Accountable(s, c, op, r) && c.RecordOutcome? && c.recordedId == op.operationId && c.responseAttempt == Some(attempt)
    ensures Accountable(s, c, op, r.(pendingResponseAttempts := Without(r.pendingResponseAttempts, attempt)))
  {
    hide Revives;
    WithoutKeeps(r.pendingResponseAttempts, attempt);
  }

  lemma RecordAccountable(s: State, id: string, o: Outcome, attempt: Option<int>)
    requires Sound(s) && StepOutcome(s, id, o, attempt).Ok?
    ensures AllAccountable(s, RecordOutcome(id, o, attempt), StepOutcome(s, id, o, attempt).value)
  {
    hide PlanEvidence, Sound, OutcomeEffect, Accountable, Without, RelatedTo, Replaced, FactsForward, RecordSound,
      Forward;
    var c := RecordOutcome(id, o, attempt);
    var i := IndexOf(s.operations, id).value;
    var op := s.operations[i];
    var inner := PlanEvidence(s.facts, op, o, s.operations).value;
    var plan := PlanOutcome(s.facts, op, o, s.operations, attempt).value;
    FactsForwardReflexive(s);
    SoundBounded(s);
    EvidenceEffect(s.facts, op, o, s.operations);
    EffectAccountable(s, c, s.facts, op, o, inner);
    EffectFlag(s.facts, op, o, s.operations, inner);
    if attempt.Some? {
      RetireAccountable(s, c, op, inner.operation, attempt.value);
    }
    OutcomeDevelops(s, i, s.facts, o, attempt);
    CommitAccountable(s, c, i, plan.operation, plan.relatedOperations, plan.facts);
  }

  lemma EffectFlag(f: PaymentFacts, op: OperationRecord, o: Outcome, operations: seq<OperationRecord>,
                   plan: OutcomePlan)
    requires OutcomeEffect(f, op, o, operations, plan)
    ensures f.reconciliationRequired ==> plan.facts.reconciliationRequired
  {
  }

  lemma ReflexiveAccountable(s: State, c: Command, r: OperationRecord)
    ensures Accountable(s, c, r, r)
  {
  }

  lemma SameAccountable(s: State, c: Command, t: State)
    requires s.operations <= t.operations
    requires s.facts.reconciliationRequired ==> t.facts.reconciliationRequired
    ensures AllAccountable(s, c, t)
  {
    hide Accountable;
    forall n | 0 <= n < |s.operations| {
      ReflexiveAccountable(s, c, s.operations[n]);
    }
  }

  lemma ObserveAccountable(s: State, u: Option<Update>)
    requires Sound(s) && StepObserve(s, u).Ok?
    ensures AllAccountable(s, Observe(u), StepObserve(s, u).value)
  {
    hide PlanObservation, PlanOutcome, AggregateFacts, Sound, CorrelatedAt, Replaced, AnyActiveRefund, Committed,
      AllAccountable;
    var t := StepObserve(s, u).value;
    if u.None? {
      NoObservation(s);
      SameAccountable(s, Observe(u), t);
    } else {
      var i := ObserveCases(s, u.value);
      if i < 0 {
        SameAccountable(s, Observe(u), t);
      } else {
        CorrelatedAccountable(s, u.value, i, t);
      }
    }
  }

  lemma CorrelatedAccountable(s: State, u: Update, i: nat, t: State)
    requires Sound(s) && CorrelatedAt(s, u, i)
    requires var plan := CorrelatedPlan(s, u, i);
      && t.operations == Replaced(s.operations, [plan.operation] + plan.relatedOperations)
      && t.facts == MarkedRefund(plan.facts, t.operations)
    ensures AllAccountable(s, Observe(Some(u)), t)
  {
    hide PlanEvidence, Sound, OutcomeEffect, Accountable, AggregateFacts, RelatedTo, Replaced, FactsForward,
      RecordSound, Forward, AnyActiveRefund;
    var c := Observe(Some(u));
    var o := u.OutcomePart().value;
    var op := s.operations[i];
    var mid := AggregateFacts(s.facts, u).value;
    var plan := CorrelatedPlan(s, u, i);
    SoundBounded(s);
    AggregateForward(s.facts, u);
    AggregateBounded(s.facts, mid);
    EvidenceEffect(mid, op, o, s.operations);
    EffectAccountable(s, c, mid, op, o, plan);
    EffectFlag(mid, op, o, s.operations, plan);
    OutcomeDevelops(s, i, mid, o, None);
    MarkedForward(s.facts, plan.facts, t.operations, plan.operation);
    CommitAccountable(s, c, i, plan.operation, plan.relatedOperations, t.facts);
  }

  lemma AggregateBounded(f: PaymentFacts, g: PaymentFacts)
    requires FactsForward(f, g)
    ensures FactsBounded(g)
  {
  }

  lemma DecidedAccountable(s: State, i: nat, c: Command)
    requires c.Resolve? && i < |s.operations| && c.resolvedId == s.operations[i].operationId
    requires Sound(s) && Decidable(s, i, c.decision)
    ensures Accountable(s, c, s.operations[i], DecidedRecord(s, i, c.decision))
  {
    hide Sound, PlanOutcome, LaterIntent, OutcomeEffect, CancellationSucceeded, RelatedTo, RecordSound, Reopened;
    var d := c.decision;
    DecidedForward(s, i, d);
    ReopenedSubmission(s.operations[i], d.outcome);
    EffectSubmission(s.facts, Reopened(s.operations[i], d.outcome), d.outcome, s.operations, DecidedPlan(s, i, d));
  }

  lemma ReopenedSubmission(op: OperationRecord, o: Outcome)
    ensures SameSubmission(op, Reopened(op, o))
  {
  }

  lemma EffectSubmission(f: PaymentFacts, op: OperationRecord, o: Outcome, operations: seq<OperationRecord>,
                         plan: OutcomePlan)
    requires OutcomeEffect(f, op, o, operations, plan)
    ensures SameSubmission(op, plan.operation)
  {
  }

  lemma ResolveAccountable(s: State, id: string, d: Decision, op: OperationRecord, f: PaymentFacts)
    requires Sound(s) && StepResolve(s, id, d, op, f).Ok?
    ensures AllAccountable(s, Resolve(id, d, op, f), StepResolve(s, id, d, op, f).value)
  {
    hide StepResolve, Decidable, Sound, Accountable, FactsForward, Forward, RecordSound, RelatedTo, OutcomeEffect,
      Replaced;
    var c := Resolve(id, d, op, f);
    var t := StepResolve(s, id, d, op, f).value;
    var i := ResolveCases(s, id, d, op, f);
    if FindDecision(s.operations[i].resolutions, d.resolutionId).Some? {
      AcknowledgedStep(s, i);
      SameAccountable(s, c, t);
    } else {
      var plan := DecidedPlan(s, i, d);
      DecidedForward(s, i, d);
      EffectFlag(s.facts, Reopened(s.operations[i], d.outcome), d.outcome, s.operations, plan);
      WithMarkerForward(s.facts, plan, s.operations[i], d, t.operations, t.facts, DecidedRecord(s, i, d));
      DecidedAccountable(s, i, c);
      CommitAccountable(s, c, i, DecidedRecord(s, i, d), plan.relatedOperations, t.facts);
    }
  }

  lemma ClaimAccountable(s: State, id: string, attempt: int, now: Time, until: Option<Time>, scope: Option<string>)
    requires Sound(s) && StepClaim(s, id, attempt, now, until, scope).Ok?
    ensures AllAccountable(s, Claim(id, attempt, now, until, scope), StepClaim(s, id, attempt, now, until, scope).value)
  {
    var i := IndexOf(s.operations, id).value;
    assert RecordSound(s.facts, s.operations[i]);
    var pending := s.operations[i].pendingResponseAttempts;
    assert s.operations[i].submissionAttempts == 0 ==> pending == [] by {
      if pending != [] {
        assert 0 < pending[0] <= s.operations[i].submissionAttempts;
      }
    }
    hide Revives;
  }

  lemma FailureAccountable(s: State, id: string, evidence: RecoveryEvidence)
    requires StepFailure(s, id, evidence).Ok?
    ensures AllAccountable(s, RecordFailure(id, evidence), StepFailure(s, id, evidence).value)
  {
  }

  lemma StepAccountable(s: State, c: Command)
    requires Sound(s) && Step(s, c).Ok?
    ensures AllAccountable(s, c, Step(s, c).value)
  {
    hide StepObserve, StepClaim, StepOutcome, StepFailure, StepResolve, Sound, AllAccountable, PlanReservation;
    match c
    case Observe(u) => ObserveAccountable(s, u);
    case Reserve(intent) =>
      ReserveKeepsFlag(s, intent);
      SameAccountable(s, c, Step(s, c).value);
    case Claim(id, attempt, now, until, scope) => ClaimAccountable(s, id, attempt, now, until, scope);
    case RecordOutcome(id, o, attempt) => RecordAccountable(s, id, o, attempt);
    case RecordFailure(id, evidence) => FailureAccountable(s, id, evidence);
    case Resolve(id, d, op, f) => ResolveAccountable(s, id, d, op, f);
  }

  lemma ReserveKeepsFlag(s: State, intent: Intent)
    requires StepReserve(s, intent).Ok?
    ensures s.facts.reconciliationRequired ==> StepReserve(s, intent).value.facts.reconciliationRequired
  {
  }

  lemma AfterAccountable(s: State, c: Command)
    requires Sound(s)
    ensures AllAccountable(s, c, After(s, c)) || After(s, c) == s
  {
    hide Step, Sound, AllAccountable;
    if Step(s, c).Ok? {
      StepAccountable(s, c);
    }
  }

  // ---- over whole runs ----

  /** Where in a run a rejected operation came to succeed. */
  lemma {:induction false} RejectionIsFinal(s: State, commands: seq<Command>, i: nat) returns (k: nat)
    requires Sound(s) && i < |s.operations| && s.operations[i].state.Rejected?
    requires var t := Run(s, commands); i < |t.operations| && t.operations[i].state.Succeeded?
    ensures k < |commands|
    ensures var t := Run(s, commands[..k]);
      i < |t.operations| && t.operations[i].state.Rejected? && Revives(t, commands[k], t.operations[i])
  {
    hide Revives, Develops, Sound, After;
    var n := |commands| - 1;
    if commands == [] {
      assert false;
    }
    var rest := commands[..n];
    RunDevelops(s, rest);
    InRange(s, Run(s, rest), i);
    AfterAccountable(Run(s, rest), commands[n]);
    if Run(s, rest).operations[i].state.Rejected? {
      k := n;
    } else {
      k := RejectionIsFinal(s, rest, i);
      assert rest[..k] == commands[..k];
    }
  }

  lemma InRange(s: State, t: State, i: nat)
    requires Develops(s, t) && i < |s.operations|
    ensures i < |t.operations| && Forward(s.operations[i], t.operations[i])
    ensures s.operations[i].state.Rejected? ==> t.operations[i].state.Terminal()
  {
  }

  /** A granted attempt stays pending, and its operation stays listed as unresolved work, until the
      attempt's own response or an audited decision is recorded, whatever else is called. */
  lemma {:induction false} PendingUntilAnswered(s: State, commands: seq<Command>, i: nat, attempt: int)
    requires Sound(s) && i < |s.operations| && attempt in s.operations[i].pendingResponseAttempts
    requires forall k :: 0 <= k < |commands| ==> !Answers(commands[k], s.operations[i].operationId, attempt)
    ensures var t := Run(s, commands);
      && i < |t.operations|
      && t.operations[i].operationId == s.operations[i].operationId
      && attempt in t.operations[i].pendingResponseAttempts
      && t.operations[i].Unresolved()
      && 0 < attempt <= t.operations[i].submissionAttempts
  {
    if commands == [] {
      assert RecordSound(s.facts, s.operations[i]);
    } else {
      var rest := commands[..|commands| - 1];
      var last := commands[|commands| - 1];
      PendingUntilAnswered(s, rest, i, attempt);
      RunDevelops(s, rest);
      AfterAccountable(Run(s, rest), last);
      AfterDevelops(Run(s, rest), last);
      hide Sound, After, Revives;
      assert Forward(Run(s, rest).operations[i], Run(s, commands).operations[i]);
    }
  }

  /** A reconciliation requirement of the payment disappears only by a decision that asked for it
      while no operation was flagged. */
  lemma {:induction false} FlagClearedByDecision(s: State, commands: seq<Command>) returns (k: nat)
    requires Sound(s) && s.facts.reconciliationRequired && !Run(s, commands).facts.reconciliationRequired
    ensures k < |commands|
    ensures Clears(commands[k], Run(s, commands[..k + 1]))
    ensures Run(s, commands[..k]).facts.reconciliationRequired && !Run(s, commands[..k + 1]).facts.reconciliationRequired
  {
    hide Revives, Develops, Sound, After;
    if commands == [] {
      assert false;
    }
    var n := |commands| - 1;
    var rest := commands[..n];
    RunDevelops(s, rest);
    AfterAccountable(Run(s, rest), commands[n]);
    if Run(s, rest).facts.reconciliationRequired {
      k := n;
      assert commands[..n + 1] == commands;
    } else {
      k := FlagClearedByDecision(s, rest);
      assert rest[..k] == commands[..k] && rest[..k + 1] == commands[..k + 1];
    }
  }

  // ---- submissions ----

  /** An operation that the provider accepted, or that ended, is never submitted again. */
  lemma {:induction false} AcceptedIsNeverResubmitted(s: State, commands: seq<Command>, i: nat)
    requires Sound(s) && i < |s.operations|
    requires s.operations[i].state.ProviderPending? || s.operations[i].state.Terminal()
    ensures var t := Run(s, commands);
      && i < |t.operations|
      && (t.operations[i].state.ProviderPending? || t.operations[i].state.Terminal())
      && t.operations[i].submissionAttempts == s.operations[i].submissionAttempts
  {
    if commands == [] {
    } else {
      var rest := commands[..|commands| - 1];
      var last := commands[|commands| - 1];
      AcceptedIsNeverResubmitted(s, rest, i);
      RunDevelops(s, rest);
      AfterAccountable(Run(s, rest), last);
      AfterDevelops(Run(s, rest), last);
      hide Sound, After, Revives;
      assert Forward(Run(s, rest).operations[i], Run(s, commands).operations[i]);
    }
  }

  /** After the deadline frozen with its first attempt, an operation is never submitted again. */
  lemma {:induction false} NoRetryAfterDeadline(s: State, commands: seq<Command>, i: nat)
    requires Sound(s) && i < |s.operations| && 0 < s.operations[i].submissionAttempts && s.operations[i].retryUntil.Some?
    requires forall k :: 0 <= k < |commands| && commands[k].Claim? ==> s.operations[i].retryUntil.value <= commands[k].now
    ensures var t := Run(s, commands);
      && i < |t.operations|
      && t.operations[i].submissionAttempts == s.operations[i].submissionAttempts
      && t.operations[i].retryUntil == s.operations[i].retryUntil
  {
    if commands == [] {
    } else {
      var rest := commands[..|commands| - 1];
      var last := commands[|commands| - 1];
      NoRetryAfterDeadline(s, rest, i);
      RunDevelops(s, rest);
      AfterAccountable(Run(s, rest), last);
      AfterDevelops(Run(s, rest), last);
      hide Sound, After, Revives;
      assert Forward(Run(s, rest).operations[i], Run(s, commands).operations[i]);
    }
  }

  // ---- new reservations ----

  /** What a new operation may reserve: a capture within the hold and the uncaptured amount and only
      while nothing is being returned, a refund within the money not yet returned, the whole hold for
      its release, and no amount otherwise. An omitted amount takes all that is available. */
  ghost predicate ReservesWithin(f: PaymentFacts, requested: Option<Money>, r: OperationRecord) {
    match r.operationType
    case Charge =>
      var available := Min(f.remainingAuthorization, f.amountRequired - f.capturedFunds);
      && f.status != RefundStarted && f.refundedFunds == 0.0
      && r.resolvedAmount == Some(requested.GetOr(available))
      && 0.0 < r.resolvedAmount.value <= available
    case StartRefund =>
      var available := f.capturedFunds - f.refundedFunds;
      r.resolvedAmount == Some(requested.GetOr(available)) && 0.0 < r.resolvedAmount.value <= available
    case ReleaseLock =>
      && 0.0 < f.remainingAuthorization
      && r.resolvedAmount == Some(f.remainingAuthorization)
      && (requested.Some? ==> requested == r.resolvedAmount)
    case Prepare =>
      r.resolvedAmount.None? && requested.None? && f.status.New? && f.capturedFunds == 0.0 && f.remainingAuthorization == 0.0
    case CancelRefund => r.resolvedAmount.None? && requested.None?
  }

  /** A cancellation freezes the provider handle of the pending refund it names. */
  ghost predicate FreezesTarget(s: State, r: OperationRecord) {
    r.operationType.CancelRefund? ==>
      exists k :: 0 <= k < |s.operations| && NamesPending(s.operations[k], r)
  }

  predicate NamesPending(target: OperationRecord, r: OperationRecord) {
    && r.Cancels(target)
    && target.state.ProviderPending?
    && target.correlation.Some?
    && CANCELLATION_CORRELATION in r.parameters
    && r.parameters[CANCELLATION_CORRELATION] == target.correlation.value
  }

  /** A history grows by one reservation at a time, made only while nothing requires reconciliation
      and nothing else holds the payment, against the totals of that moment. */
  lemma GrowsByReservation(s: State, c: Command)
    requires Sound(s) && |s.operations| < |After(s, c).operations|
    ensures var t := After(s, c);
      && c.Reserve?
      && |t.operations| == |s.operations| + 1
      && var r := t.operations[|s.operations|];
      && r.operationId == c.intent.operationId && r.parametersDigest == c.intent.request
      && !s.facts.reconciliationRequired
      && (forall x :: x in s.operations ==> !x.reconciliationRequired && (x.Holds() ==> r.Cancels(x)))
      && r.startingCaptured == s.facts.capturedFunds
      && r.startingRefunded == s.facts.refundedFunds
      && r.startingAuthorization == s.facts.remainingAuthorization
      && ReservesWithin(s.facts, c.intent.request.amount, r)
      && FreezesTarget(s, r)
      && CarriesRequest(r)
      && ReservedAs(s, c.intent, r)
      && SameMoney(s.facts, t.facts)
  {
    OnlyReserveGrows(s, c);
    StepOfReserve(s, c);
    NewIntent(s, c.intent);
    NewAmount(s.facts, s.operations, c.intent);
    NewTarget(s, c.intent);
    NewContents(s, c.intent);
    hide PlanReservation, Sound, ReservesWithin, FreezesTarget, Step, ReservedAs, CarriesRequest;
  }

  lemma NewContents(s: State, intent: Intent)
    requires Sound(s) && PlanReservation(s.facts, s.operations, intent).Ok?
    requires PlanReservation(s.facts, s.operations, intent).value.created
    ensures var r := PlanReservation(s.facts, s.operations, intent).value.operation;
      ReservedAs(s, intent, r) && CarriesRequest(r)
  {
    hide PlanReservation, Sound, Reservable, ReservedAs, CarriesRequest;
    ReservationContents(s, intent);
    CreatedIsNew(s, intent);
    ReservationAccepted(s, intent);
    ReservedCarries(s, intent, PlanReservation(s.facts, s.operations, intent).value.operation);
  }

  lemma CreatedIsNew(s: State, intent: Intent)
    requires Sound(s) && PlanReservation(s.facts, s.operations, intent).Ok?
    requires PlanReservation(s.facts, s.operations, intent).value.created
    ensures forall r :: r in s.operations ==> r.operationId != intent.operationId
  {
    NewIntent(s, intent);
    ReservationAppends(s, intent);
    hide Sound, PlanReservation, RecordSound, FactsForward;
  }

  /** In every run, every record carries the request whose digest it holds: its type, its amount if it named one,
      and its parameters, with nothing added but the handle that a cancellation needs. */
  lemma {:induction false} RequestsStayCarried(s: State, commands: seq<Command>)
    requires Sound(s) && RequestsCarried(s)
    ensures RequestsCarried(Run(s, commands))
  {
    if commands == [] {
    } else {
      var rest := commands[..|commands| - 1];
      RequestsStayCarried(s, rest);
      RunDevelops(s, rest);
      hide After, Sound, RequestsCarried;
      AfterCarries(Run(s, rest), commands[|commands| - 1]);
    }
  }

  lemma AfterCarries(s: State, c: Command)
    requires Sound(s) && RequestsCarried(s)
    ensures RequestsCarried(After(s, c))
  {
    hide After, Sound, CarriesRequest, ReservedAs, FreezesTarget, ReservesWithin;
    var t := After(s, c);
    AfterDevelops(s, c);
    DevelopsGrows(s, t);
    if |t.operations| == |s.operations| {
      KeepsRequests(s, t);
    } else {
      GrowsByReservation(s, c);
      var n := |s.operations|;
      forall r | r in t.operations
        ensures CarriesRequest(r)
      {
        var k :| 0 <= k < |t.operations| && t.operations[k] == r;
        if k < n {
          KeptIntent(s, t, k);
          IntentCarries(s.operations[k], r);
        }
      }
    }
  }

  lemma DevelopsGrows(s: State, t: State)
    requires Develops(s, t)
    ensures |s.operations| <= |t.operations|
  {
  }

  lemma KeptIntent(s: State, t: State, k: nat)
    requires Develops(s, t) && k < |s.operations|
    ensures k < |t.operations| && SameIntent(s.operations[k], t.operations[k])
  {
    assert Forward(s.operations[k], t.operations[k]);
  }

  lemma StepOfReserve(s: State, c: Command)
    requires c.Reserve?
    ensures Step(s, c) == StepReserve(s, c.intent)
  {
    hide StepReserve;
  }

  lemma NewIntent(s: State, intent: Intent)
    requires Sound(s) && PlanReservation(s.facts, s.operations, intent).Ok?
    requires PlanReservation(s.facts, s.operations, intent).value.created
    ensures var plan := PlanReservation(s.facts, s.operations, intent).value;
      var r := plan.operation;
      && r.operationId == intent.operationId && r.parametersDigest == intent.request
      && !s.facts.reconciliationRequired
      && (forall x :: x in s.operations ==> !x.reconciliationRequired && (x.Holds() ==> r.Cancels(x)))
      && r.startingCaptured == s.facts.capturedFunds
      && r.startingRefunded == s.facts.refundedFunds
      && r.startingAuthorization == s.facts.remainingAuthorization
      && SameMoney(s.facts, plan.facts)
  {
    ReservationAppends(s, intent);
    hide Sound, RecordSound, FactsForward;
  }

  lemma NewAmount(f: PaymentFacts, operations: seq<OperationRecord>, intent: Intent)
    requires PlanReservation(f, operations, intent).Ok? && PlanReservation(f, operations, intent).value.created
    ensures ReservesWithin(f, intent.request.amount, PlanReservation(f, operations, intent).value.operation)
  {
    hide CancellableTarget, LastSequence, IndexOf;
  }

  lemma NewTarget(s: State, intent: Intent)
    requires PlanReservation(s.facts, s.operations, intent).Ok? && PlanReservation(s.facts, s.operations, intent).value.created
    ensures FreezesTarget(s, PlanReservation(s.facts, s.operations, intent).value.operation)
  {
    hide LastSequence, IndexOf, ResolveAmount;
    var r := PlanReservation(s.facts, s.operations, intent).value.operation;
    if r.operationType.CancelRefund? {
      var k := CancellableFound(s.operations, IntentTarget(intent));
      assert NamesPending(s.operations[k], r);
    }
  }

  lemma OnlyReserveGrows(s: State, c: Command)
    requires |s.operations| < |After(s, c).operations|
    ensures c.Reserve? && StepReserve(s, c.intent).Ok?
    ensures PlanReservation(s.facts, s.operations, c.intent).value.created
  {
    hide PlanObservation, PlanOutcome, PlanResolution, PlanSubmission, PlanFailure, PlanReservation;
  }

  /** While the payment requires reconciliation, no new operation is reserved, until a decision
      clears the requirement; observations, outcomes and decisions go on. */
  lemma {:induction false} NothingReservedWhileFlagged(s: State, commands: seq<Command>)
    requires Sound(s) && s.facts.reconciliationRequired
    requires forall k :: 0 <= k < |commands| ==> !(commands[k].Resolve? && commands[k].decision.clearPaymentReconciliation)
    ensures |Run(s, commands).operations| == |s.operations| && Run(s, commands).facts.reconciliationRequired
  {
    if commands == [] {
    } else {
      hide Sound, After, Accountable;
      var rest := commands[..|commands| - 1];
      var last := commands[|commands| - 1];
      NothingReservedWhileFlagged(s, rest);
      RunDevelops(s, rest);
      AfterAccountable(Run(s, rest), last);
      AfterDevelops(Run(s, rest), last);
      if |Run(s, rest).operations| < |After(Run(s, rest), last).operations| {
        GrowsByReservation(Run(s, rest), last);
      }
    }
  }

  // ---- resuming a reservation ----

  /** Once an operation is retained, a command with its identity is accepted, ever after, exactly when
      it makes the same request; it then resumes the reservation and changes nothing. */
  lemma ReservationResumes(s: State, commands: seq<Command>, i: nat, intent: Intent)
    requires Sound(s) && i < |s.operations| && intent.operationId == s.operations[i].operationId
    ensures var t := Run(s, commands);
      && (Step(t, Reserve(intent)).Ok? <==> intent.request == s.operations[i].parametersDigest)
      && After(t, Reserve(intent)) == t
  {
    RunDevelops(s, commands);
    var t := Run(s, commands);
    assert Forward(s.operations[i], t.operations[i]);
    FindsItself(t, i);
    hide Sound, Develops;
    assert Step(t, Reserve(intent)) == StepReserve(t, intent);
  }

  // ---- retrying a decision ----

  lemma {:induction false} FoundDecisionStays(decisions: seq<Decision>, more: seq<Decision>, id: string)
    requires FindDecision(decisions, id).Some?
    ensures FindDecision(decisions + more, id) == FindDecision(decisions, id)
  {
    if decisions[0].resolutionId == id {
    } else {
      FoundDecisionStays(decisions[1..], more, id);
      assert (decisions + more)[1..] == decisions[1..] + more;
    }
  }

  lemma {:induction false} AddedDecisionIsFound(decisions: seq<Decision>, d: Decision)
    requires FindDecision(decisions, d.resolutionId).None?
    ensures FindDecision(decisions + [d], d.resolutionId) == Some(d)
  {
    if decisions == [] {
    } else {
      AddedDecisionIsFound(decisions[1..], d);
      assert (decisions + [d])[1..] == decisions[1..] + [d];
    }
  }

  /** An accepted decision is retained with its operation. */
  lemma DecisionIsRetained(s: State, id: string, d: Decision, op: OperationRecord, f: PaymentFacts) returns (i: nat)
    requires Sound(s) && StepResolve(s, id, d, op, f).Ok?
    ensures var t := StepResolve(s, id, d, op, f).value;
      && i < |t.operations|
      && t.operations[i].operationId == id
      && FindDecision(t.operations[i].resolutions, d.resolutionId) == Some(d)
  {
    hide StepResolve, Decidable, Sound, FactsForward, RecordSound, RelatedTo, OutcomeEffect, Replaced;
    var t := StepResolve(s, id, d, op, f).value;
    i := ResolveCases(s, id, d, op, f);
    if FindDecision(s.operations[i].resolutions, d.resolutionId).Some? {
      AcknowledgedStep(s, i);
      AcknowledgedIsSame(s, id, d, op, f);
    } else {
      var plan := DecidedPlan(s, i, d);
      DecidedForward(s, i, d);
      WithMarkerForward(s.facts, plan, s.operations[i], d, t.operations, t.facts, DecidedRecord(s, i, d));
      CommitDevelops(s, i, DecidedRecord(s, i, d), plan.relatedOperations, t.facts);
      NoneFound(s, i, d);
      AddedDecisionIsFound(s.operations[i].resolutions, d);
    }
  }

  lemma NoneFound(s: State, i: nat, d: Decision)
    requires Decidable(s, i, d)
    ensures FindDecision(s.operations[i].resolutions, d.resolutionId).None?
  {
  }

  /** A resolution identity that is already bound accepts only the decision it binds. */
  lemma AcknowledgedIsSame(s: State, id: string, d: Decision, op: OperationRecord, f: PaymentFacts)
    requires StepResolve(s, id, d, op, f).Ok?
    requires IndexOf(s.operations, id).Some?
    ensures var found := FindDecision(s.operations[IndexOf(s.operations, id).value].resolutions, d.resolutionId);
      found.Some? ==> found == Some(d)
  {
    hide PlanOutcome, Reopened, Replaced, LaterIntent, FindDecision, WithMarker, IndexOf;
  }

  /** Once a decision is retained, its identity is accepted, ever after, exactly for the same decision,
      and accepting it again changes nothing, whatever state the caller expects. */
  lemma DecisionResumes(s: State, commands: seq<Command>, i: nat, d: Decision, e: Decision, op: OperationRecord,
                        f: PaymentFacts)
    requires Sound(s) && i < |s.operations| && FindDecision(s.operations[i].resolutions, d.resolutionId) == Some(d)
    requires DecisionValid(e) && e.resolutionId == d.resolutionId
    ensures var t := Run(s, commands);
      var c := Resolve(s.operations[i].operationId, e, op, f);
      (Step(t, c).Ok? <==> e == d) && After(t, c) == t
  {
    RunDevelops(s, commands);
    var t := Run(s, commands);
    assert Forward(s.operations[i], t.operations[i]);
    hide Run;
    FindsItself(t, i);
    AcknowledgedStep(t, i);
    var before, after := s.operations[i].resolutions, t.operations[i].resolutions;
    assert after == before + after[|before|..];
    FoundDecisionStays(before, after[|before|..], d.resolutionId);
    hide Sound, Develops, Forward;
    BoundDecision(t, i, d, e, op, f);
  }

  lemma BoundDecision(s: State, i: nat, d: Decision, e: Decision, op: OperationRecord, f: PaymentFacts)
    requires i < |s.operations| && IndexOf(s.operations, s.operations[i].operationId) == Some(i)
    requires Committed(s, s.facts, [s.operations[i]]) == s
    requires FindDecision(s.operations[i].resolutions, d.resolutionId) == Some(d)
    requires DecisionValid(e) && e.resolutionId == d.resolutionId
    ensures var c := Resolve(s.operations[i].operationId, e, op, f);
      (Step(s, c).Ok? <==> e == d) && After(s, c) == s
  {
    hide PlanOutcome, Reopened, Replaced, LaterIntent, FindDecision, WithMarker, IndexOf;
    assert [s.operations[i]] + [] == [s.operations[i]];
    var id := s.operations[i].operationId;
    assert Step(s, Resolve(id, e, op, f)) == StepResolve(s, id, e, op, f);
  }
}
