/** What the repository answers to an intent, a claim and a failed recording: exactly when each call is accepted,
    exactly what it commits, and which error refuses it. */
module Verdicts {
  import opened Wrappers
  import opened Records
  import opened StateEngine
  import opened Rules
  import opened Effects
  import opened System
  import opened History
  import opened Steps
  import opened Decisions

  /** `xs` with `x`, once. */
  function Added<T(==)>(xs: seq<T>, x: T): seq<T> {
    if x in xs then xs else xs + [x]
  }

  // ---- claims ----

  /** The claim that may be submitted: the first one of a reserved operation, or the next one of an uncertain
      operation before its frozen deadline. Both name the attempts made so far. */
  predicate ClaimGrants(op: OperationRecord, expected: int, now: Time) {
    && expected == op.submissionAttempts
    && (|| op.state == Reserved
        || (&& op.state in {Unknown, Submitting}
            && 0 < expected
            && op.retryUntil.Some?
            && now < op.retryUntil.value))
  }

  /** The record of one more attempt. The first one freezes the time, the deadline and the key scope. */
  function Attempted(op: OperationRecord, now: Time, until: Option<Time>, scope: Option<string>): OperationRecord {
    var next := op.submissionAttempts + 1;
    var first := op.submissionAttempts == 0;
    op.(state := Submitting,
        submissionAttempts := next,
        pendingResponseAttempts := op.pendingResponseAttempts + [next],
        submittedAt := if first then Some(now) else op.submittedAt,
        retryUntil := if first then until else op.retryUntil,
        idempotencyScope := if first then scope else op.idempotencyScope)
  }

  /** Anyone may claim a retained operation while nothing requires reconciliation. The claim is granted exactly
      when it may be submitted, and otherwise changes nothing. */
  lemma ClaimVerdict(s: State, i: nat, expected: int, now: Time, until: Option<Time>, scope: Option<string>)
    requires Sound(s) && i < |s.operations|
    ensures var op := s.operations[i];
      var flagged := s.facts.reconciliationRequired || op.reconciliationRequired;
      var granted := ClaimGrants(op, expected, now);
      && Step(s, Claim(op.operationId, expected, now, until, scope))
         == (if flagged then Err(ReconciliationBlocked)
             else if expected < 0 then Err(InvalidTransition)
             else if granted then Ok(s.(operations := s.operations[i := Attempted(op, now, until, scope)]))
             else Ok(s))
      && (!flagged && 0 <= expected ==>
            PlanSubmission(s.facts, op, expected, now, until, scope)
            == Ok(SubmissionPlan(if granted then Attempted(op, now, until, scope) else op, granted)))
  {
    FindsItself(s, i);
    var op := s.operations[i];
    assert RecordSound(s.facts, op);
    SubmissionVerdict(s.facts, op, expected, now, until, scope);
    hide Sound, RecordSound, PlanSubmission, ClaimGrants, Attempted;
    assert s.operations[i := op] == s.operations;
    assert Step(s, Claim(op.operationId, expected, now, until, scope))
        == StepClaim(s, op.operationId, expected, now, until, scope);
  }

  lemma SubmissionVerdict(f: PaymentFacts, op: OperationRecord, expected: int, now: Time, until: Option<Time>,
                          scope: Option<string>)
    requires RecordSound(f, op)
    ensures var granted := ClaimGrants(op, expected, now);
      PlanSubmission(f, op, expected, now, until, scope)
      == if f.reconciliationRequired || op.reconciliationRequired then Err(ReconciliationBlocked)
         else if expected < 0 then Err(InvalidTransition)
         else Ok(SubmissionPlan(if granted then Attempted(op, now, until, scope) else op, granted))
  {
    PendingIsClaimed(op);
    if op.submissionAttempts == 0 {
      assert op.pendingResponseAttempts + [1] == [1];
    }
  }

  lemma PendingIsClaimed(r: OperationRecord)
    requires AttemptsSound(r)
    ensures r.pendingResponseAttempts != [] ==> 0 < r.submissionAttempts
  {
    if r.pendingResponseAttempts != [] {
      assert 0 < r.pendingResponseAttempts[0] <= r.submissionAttempts;
    }
  }

  /** Nothing can be claimed, recorded or decided about an operation that was never reserved. */
  lemma UnknownOperation(s: State, c: Command)
    requires c.Claim? || c.RecordOutcome? || c.RecordFailure? || c.Resolve?
    requires var id := (match c case Claim(x, _, _, _, _) => x case RecordOutcome(x, _, _) => x
                                case RecordFailure(x, _) => x case Resolve(x, _, _, _) => x case _ => "");
      forall r :: r in s.operations ==> r.operationId != id
    ensures Step(s, c) == Err(OperationConflict)
  {
    hide PlanSubmission, PlanOutcome, PlanFailure;
  }

  // ---- failures ----

  /** A response that could not be recorded is always retained as a claim, once, and changes nothing else. */
  lemma FailureVerdict(s: State, i: nat, evidence: RecoveryEvidence)
    requires Sound(s) && i < |s.operations|
    ensures var op := s.operations[i];
      Step(s, RecordFailure(op.operationId, evidence))
      == Ok(s.(operations := s.operations[i := op.(reconciliationRequired := true,
                                                   recoveryEvidence := Added(op.recoveryEvidence, evidence))]))
  {
    FindsItself(s, i);
    hide Sound;
    var id := s.operations[i].operationId;
    assert Step(s, RecordFailure(id, evidence)) == StepFailure(s, id, evidence);
  }

  // ---- reservations ----

  /** All that the intent's type may take of the current money, and whether the payment lets it. */
  predicate AmountAllowed(f: PaymentFacts, intent: Intent) {
    var requested := intent.request.amount;
    match intent.request.operationType
    case Prepare =>
      requested.None? && f.status == New && f.capturedFunds == 0.0 && f.remainingAuthorization == 0.0
    case Charge =>
      && f.status != RefundStarted && f.refundedFunds == 0.0
      && 0.0 < requested.GetOr(f.remainingAuthorization) <= f.remainingAuthorization
    case ReleaseLock =>
      && 0.0 < f.remainingAuthorization
      && requested.GetOr(f.remainingAuthorization) == f.remainingAuthorization
    case StartRefund =>
      0.0 < requested.GetOr(f.capturedFunds - f.refundedFunds) <= f.capturedFunds - f.refundedFunds
    case CancelRefund => requested.None?
  }

  function AmountTaken(f: PaymentFacts, intent: Intent): Option<Money> {
    match intent.request.operationType
    case Prepare => None
    case CancelRefund => None
    case StartRefund => Some(intent.request.amount.GetOr(f.capturedFunds - f.refundedFunds))
    case _ => Some(intent.request.amount.GetOr(f.remainingAuthorization))
  }

  /** The intent asks to cancel `r`, a refund that the provider accepted and has not finished. */
  predicate CancelsPending(intent: Intent, r: OperationRecord) {
    && intent.request.operationType == CancelRefund
    && CANCELLATION_TARGET in intent.request.parameters
    && intent.request.parameters[CANCELLATION_TARGET] == r.operationId
    && r.operationType == StartRefund
    && r.state == ProviderPending
  }

  /** The refund a cancellation can name to the provider. */
  ghost predicate CancellableAt(s: State, intent: Intent, k: int) {
    && 0 <= k < |s.operations|
    && CancelsPending(intent, s.operations[k])
    && s.operations[k].correlation.Some?
  }

  ghost predicate Flagged(s: State) {
    s.facts.reconciliationRequired || exists r :: r in s.operations && r.reconciliationRequired
  }

  /** Neither ended nor, if it ended, answered. */
  predicate Outstanding(r: OperationRecord) {
    r.state !in {Succeeded, Rejected} || r.pendingResponseAttempts != []
  }

  ghost predicate Reservable(s: State, intent: Intent) {
    && !Flagged(s)
    && (forall r :: r in s.operations && Outstanding(r) ==> CancelsPending(intent, r))
    && (intent.request.operationType == CancelRefund ==> exists k :: CancellableAt(s, intent, k))
    && AmountAllowed(s.facts, intent)
  }

  /** `n` is the next sequence number. */
  ghost predicate NextSequence(operations: seq<OperationRecord>, n: int) {
    && (forall r :: r in operations ==> r.reservationSequence < n)
    && (if operations == [] then n == 1 else exists r :: r in operations && n == r.reservationSequence + 1)
  }

  /** The new record freezes the request and the money of its moment. A cancellation adds the provider's handle
      of the refund it names. */
  ghost predicate ReservedAs(s: State, intent: Intent, r: OperationRecord) {
    && r == OperationRecord(
         s.facts.paymentId, intent.operationId, intent.request.operationType, Reserved,
         AmountTaken(s.facts, intent), intent.request,
         s.facts.capturedFunds, s.facts.refundedFunds, s.facts.remainingAuthorization,
         r.parameters, s.facts.backend, r.reservationSequence, None, 0, [], None, None, None, None, false, [], [], [])
    && NextSequence(s.operations, r.reservationSequence)
    && (intent.request.operationType != CancelRefund ==> r.parameters == intent.request.parameters)
    && (forall k :: CancellableAt(s, intent, k) ==>
          r.parameters == intent.request.parameters[CANCELLATION_CORRELATION := s.operations[k].correlation.value])
  }

  lemma {:induction false} LastSequenceIsNext(operations: seq<OperationRecord>)
    ensures NextSequence(operations, LastSequence(operations) + 1)
  {
    if operations != [] {
      LastSequenceIsNext(operations[1..]);
      assert forall r :: r in operations <==> r == operations[0] || r in operations[1..];
    }
  }

  lemma {:induction false} CancellableMeans(operations: seq<OperationRecord>, intent: Intent)
    requires intent.request.operationType == CancelRefund
    ensures CancellableTarget(operations, IntentTarget(intent)).Some? <==>
      exists r :: r in operations && CancelsPending(intent, r) && r.correlation.Some?
    ensures CancellableTarget(operations, IntentTarget(intent)).Some? ==>
      var r := CancellableTarget(operations, IntentTarget(intent)).value;
      r in operations && CancelsPending(intent, r) && r.correlation.Some?
  {
    if operations != [] {
      CancellableMeans(operations[1..], intent);
      assert forall r :: r in operations <==> r == operations[0] || r in operations[1..];
    }
  }

  lemma CancellableUnique(s: State, intent: Intent, j: int, k: int)
    requires Sound(s) && CancellableAt(s, intent, j) && CancellableAt(s, intent, k)
    ensures j == k
  {
    assert s.operations[j].operationId == s.operations[k].operationId;
  }

  lemma AmountVerdict(f: PaymentFacts, intent: Intent)
    requires FactsBounded(f)
    ensures ResolveAmount(f, intent)
         == if AmountAllowed(f, intent) then Ok(AmountTaken(f, intent)) else Err(InvalidTransition)
  {
  }

  /** Exactly the holders other than the refund to cancel stand in the way of a new intent. */
  lemma BlockersMean(s: State, intent: Intent)
    requires forall r :: r in s.operations ==> r.operationId != intent.operationId
    ensures (exists r :: r in s.operations && Blocks(r, intent, IntentTarget(intent))) <==>
      exists r :: r in s.operations && Outstanding(r) && !CancelsPending(intent, r)
  {
    forall r | r in s.operations
      ensures Blocks(r, intent, IntentTarget(intent)) <==> Outstanding(r) && !CancelsPending(intent, r)
    {
    }
  }

  /** A new intent is reserved exactly when nothing requires reconciliation, nothing but the refund it cancels
      holds the payment, a cancellation names a refund known to the provider, and the money allows its amount. */
  lemma ReservationVerdict(s: State, intent: Intent)
    requires Sound(s) && forall r :: r in s.operations ==> r.operationId != intent.operationId
    ensures var next := Step(s, Reserve(intent));
      && (next.Ok? <==> Reservable(s, intent))
      && (Flagged(s) ==> next == Err(ReconciliationBlocked))
      && (next.Ok? ==>
            var t := next.value;
            && |t.operations| == |s.operations| + 1
            && t.operations[..|s.operations|] == s.operations
            && ReservedAs(s, intent, t.operations[|s.operations|])
            && t.facts == (if intent.request.operationType == StartRefund then s.facts.(status := RefundStarted)
                           else s.facts)
            && t.replay == s.replay)
  {
    ReservationAccepted(s, intent);
    hide Sound, PlanReservation, Reservable, Flagged, ReservedAs;
    assert Step(s, Reserve(intent)) == StepReserve(s, intent);
    if PlanReservation(s.facts, s.operations, intent).Ok? {
      ReservationContents(s, intent);
    }
  }

  lemma ReservationAccepted(s: State, intent: Intent)
    requires Sound(s) && forall r :: r in s.operations ==> r.operationId != intent.operationId
    ensures var plan := PlanReservation(s.facts, s.operations, intent);
      && (plan.Ok? <==> Reservable(s, intent))
      && (Flagged(s) ==> plan == Err(ReconciliationBlocked))
      && (plan.Ok? ==> plan.value.created)
  {
    SoundBounded(s);
    NewIdentity(s, intent);
    AmountVerdict(s.facts, intent);
    BlockersMean(s, intent);
    if intent.request.operationType == CancelRefund {
      CancellableMeans(s.operations, intent);
      CancellableIndex(s, intent);
    }
    hide Sound, ResolveAmount, CancellableTarget, LastSequence, AmountAllowed, Blocks, CancelsPending, FactsBounded,
      IndexOf, CancellableAt, NewRecord;
  }

  lemma ReservationContents(s: State, intent: Intent)
    requires Sound(s) && PlanReservation(s.facts, s.operations, intent).Ok?
    requires PlanReservation(s.facts, s.operations, intent).value.created
    ensures var plan := PlanReservation(s.facts, s.operations, intent).value;
      && ReservedAs(s, intent, plan.operation)
      && plan.facts == (if intent.request.operationType == StartRefund then s.facts.(status := RefundStarted) else s.facts)
  {
    SoundBounded(s);
    AmountVerdict(s.facts, intent);
    LastSequenceIsNext(s.operations);
    NewParameters(s, intent);
    hide Sound, ResolveAmount, CancellableTarget, LastSequence, AmountAllowed, Blocks, NextSequence, CancelsPending,
      FactsBounded, IndexOf, CancellableAt, AmountTaken;
  }

  lemma NewIdentity(s: State, intent: Intent)
    requires forall r :: r in s.operations ==> r.operationId != intent.operationId
    ensures IndexOf(s.operations, intent.operationId).None?
  {
    IndexedIsRetained(s.operations, intent.operationId);
  }

  lemma IndexedIsRetained(operations: seq<OperationRecord>, id: string)
    ensures IndexOf(operations, id).Some? ==> exists r :: r in operations && r.operationId == id
  {
    var i := IndexOf(operations, id);
    if i.Some? {
      assert operations[i.value] in operations;
    }
  }

  lemma CancellableIndex(s: State, intent: Intent)
    ensures (exists k :: CancellableAt(s, intent, k)) <==>
      exists r :: r in s.operations && CancelsPending(intent, r) && r.correlation.Some?
  {
    hide CancelsPending;
    if r :| r in s.operations && CancelsPending(intent, r) && r.correlation.Some? {
      var k :| 0 <= k < |s.operations| && s.operations[k] == r;
      assert CancellableAt(s, intent, k);
    }
  }

  lemma NewParameters(s: State, intent: Intent)
    requires Sound(s) && PlanReservation(s.facts, s.operations, intent).Ok?
    requires PlanReservation(s.facts, s.operations, intent).value.created
    ensures var r := PlanReservation(s.facts, s.operations, intent).value.operation;
      && (intent.request.operationType != CancelRefund ==> r.parameters == intent.request.parameters)
      && forall k :: CancellableAt(s, intent, k) ==>
           r.parameters == intent.request.parameters[CANCELLATION_CORRELATION := s.operations[k].correlation.value]
  {
    hide ResolveAmount, LastSequence, IndexOf, Blocks, CancellableTarget, CancelsPending;
    if intent.request.operationType == CancelRefund {
      CancellableMeans(s.operations, intent);
      var r := CancellableTarget(s.operations, IntentTarget(intent)).value;
      var j :| 0 <= j < |s.operations| && s.operations[j] == r;
      forall k | CancellableAt(s, intent, k)
        ensures j == k
      {
        assert CancellableAt(s, intent, j);
        CancellableUnique(s, intent, j, k);
      }
    } else {
      NothingCancelled(s, intent);
    }
  }

  lemma NothingCancelled(s: State, intent: Intent)
    requires intent.request.operationType != CancelRefund
    ensures forall k :: !CancellableAt(s, intent, k)
  {
  }

  // ---- what is submitted is what was asked ----

  /** The record carries the request whose digest it holds; a cancellation adds one handle. */
  predicate CarriesRequest(r: OperationRecord) {
    && r.operationType == r.parametersDigest.operationType
    && (r.parametersDigest.amount.Some? ==> r.resolvedAmount == r.parametersDigest.amount)
    && if r.operationType != CancelRefund then r.parameters == r.parametersDigest.parameters
       else CANCELLATION_CORRELATION in r.parameters
            && r.parameters
               == r.parametersDigest.parameters[CANCELLATION_CORRELATION := r.parameters[CANCELLATION_CORRELATION]]
  }

  ghost predicate RequestsCarried(s: State) {
    forall r :: r in s.operations ==> CarriesRequest(r)
  }

  lemma ReservedCarries(s: State, intent: Intent, r: OperationRecord)
    requires Reservable(s, intent) && ReservedAs(s, intent, r)
    ensures CarriesRequest(r)
  {
    if intent.request.operationType == CancelRefund {
      var k :| CancellableAt(s, intent, k);
    }
  }

  lemma IntentCarries(a: OperationRecord, b: OperationRecord)
    requires CarriesRequest(a) && SameIntent(a, b)
    ensures CarriesRequest(b)
  {
  }

  lemma KeepsRequests(s: State, t: State)
    requires RequestsCarried(s) && Develops(s, t) && |t.operations| == |s.operations|
    ensures RequestsCarried(t)
  {
    hide CarriesRequest;
    forall r | r in t.operations
      ensures CarriesRequest(r)
    {
      var n :| 0 <= n < |t.operations| && t.operations[n] == r;
      IntentCarries(s.operations[n], t.operations[n]);
    }
  }
}
