/** What the dispatch protocol gets done: when a worker takes up work, submits and retries, that an undisturbed
    worker reaches the provider, and that every call carries the request it was reserved for. */
module Liveness {
  import opened Wrappers
  import opened Records
  import opened Rules
  import opened Effects
  import opened System
  import opened History
  import opened Steps
  import opened Decisions
  import opened Accountability
  import opened Verdicts
  import opened Outcomes
  import opened Dispatch

  // ---- requests ----

  lemma RecordedCarries(s: State, id: string, o: Outcome, attempt: Option<int>)
    requires Sound(s) && RequestsCarried(s)
    ensures RequestsCarried(RecordedState(s, id, o, attempt))
  {
    hide Sound, Step, RequestsCarried;
    AfterCarries(s, RecordOutcome(id, o, attempt));
    AfterCarries(s, RecordFailure(id, SafeFields(o)));
  }

  lemma ActCarries(n: Net, e: Event)
    requires Sound(n.state) && RequestsCarried(n.state)
    ensures RequestsCarried(Act(n, e).state)
  {
    hide Sound, RequestsCarried, After, RecordedState, PlanReservation, GrantOf, RetryIsSafe, MaySubmit, Reconciling,
      Step;
    match e
    case Elsewhere(c) => AfterCarries(n.state, c);
    case Proceed(k) =>
      if k < |n.workers| {
        match n.workers[k]
        case Reserving(intent, cap, started) => AfterCarries(n.state, Reserve(intent));
        case Claiming(r, cap, started) =>
          AfterCarries(n.state, Claim(r.operationId, r.submissionAttempts, started,
                                      match cap.idempotency case None => None case Some(i) => Some(started + i.window),
                                      Scope(cap)));
        case Answered(r, answer, cap, resubmit) => RecordedCarries(n.state, r.operationId, answer, None);
        case Retrying(r, expected, cap) => AfterCarries(n.state, Claim(r.operationId, expected, n.clock, None, None));
        case Responded(r, response) => RecordedCarries(n.state, r.operationId, response, Some(r.submissionAttempts));
        case _ =>
      }
    case _ =>
  }

  lemma {:induction false} HistoryCarries(n: Net, events: seq<Event>)
    requires Start(n)
    ensures RequestsCarried(Played(n, events).state)
  {
    if events == [] {
    } else {
      var rest := events[..|events| - 1];
      HistoryCarries(n, rest);
      HistoryInv(n, rest);
      hide Sound, RequestsCarried, Act, CallsSound, GrantsSound;
      ActCarries(Played(n, rest), events[|events| - 1]);
    }
  }

  /** Under any interleaving, every call carries the type, amount and parameters of the request whose digest its
      operation froze, for the payment and the provider of that operation. */
  lemma CallsCarryRequests(n: Net, events: seq<Event>, a: nat)
    requires Start(n) && a < |Played(n, events).calls|
    ensures var m := Played(n, events);
      var op := m.calls[a].op;
      && CarriesRequest(op)
      && op.paymentId == m.state.facts.paymentId && op.backend == m.state.facts.backend
  {
    HistoryInv(n, events);
    HistoryCarries(n, events);
    hide Act, CarriesRequest;
    var m := Played(n, events);
    assert Pledged(m.state, m.calls[a].op);
    var i :| PledgedAt(m.state, m.calls[a].op, i);
    assert RecordSound(m.state.facts, m.state.operations[i]);
    IntentReversed(m.calls[a].op, m.state.operations[i]);
    IntentCarries(m.state.operations[i], m.calls[a].op);
  }

  lemma IntentReversed(a: OperationRecord, b: OperationRecord)
    requires SameIntent(a, b)
    ensures SameIntent(b, a)
  {
  }

  // ---- single steps ----

  /** A granted worker makes its one call exactly when the call is in time, and otherwise gives the grant up. No
      other event makes a call. */
  lemma SubmissionVerdicts(n: Net, e: Event)
    ensures var m := Act(n, e);
      if e.Proceed? && e.k < |n.workers| && n.workers[e.k].Granted? then
        var call := Call(n.workers[e.k].op, n.workers[e.k].cap, n.clock);
        m == (if InTime(call, n.timeout)
              then n.(workers := n.workers[e.k := Waiting(call.op)], calls := n.calls + [call])
              else n.(workers := n.workers[e.k := Idle]))
      else m.calls == n.calls
  {
    hide After, Step, PlanReservation, GrantOf, RecordedState, Reconciling, RetryIsSafe;
  }

  /** The deadline and the key scope that a capability declared at `now` freezes. */
  function Deadline(cap: Capability, now: Time): Option<Time> {
    match cap.idempotency case None => None case Some(i) => Some(now + i.window)
  }

  /** A worker that claims the attempt it saw holds the grant exactly when nothing requires reconciliation and the
      claim may be submitted. The terms are frozen as of the time it began. */
  lemma ClaimingVerdict(n: Net, k: nat, i: nat)
    requires Sound(n.state) && k < |n.workers| && n.workers[k].Claiming? && i < |n.state.operations|
    requires n.workers[k].op.operationId == n.state.operations[i].operationId && 0 <= n.workers[k].op.submissionAttempts
    ensures var w := n.workers[k];
      ClaimedAs(n, k, i, w.cap, w.op.submissionAttempts, w.started, Deadline(w.cap, w.started), Scope(w.cap), Act(n, Proceed(k)))
  {
    var w := n.workers[k];
    ClaimedVerdict(n, k, i, w.cap, w.op.submissionAttempts, w.started, Deadline(w.cap, w.started), Scope(w.cap));
    hide Sound, ClaimedAs, Claimed, Step, After, PlanReservation, GrantOf, RecordedState, Reconciling, RetryIsSafe,
      MaySubmit;
  }

  /** So does a worker that retries, at the present time; it freezes nothing anew. */
  lemma RetryingVerdict(n: Net, k: nat, i: nat)
    requires Sound(n.state) && k < |n.workers| && n.workers[k].Retrying? && i < |n.state.operations|
    requires n.workers[k].op.operationId == n.state.operations[i].operationId && 0 <= n.workers[k].expected
    ensures var w := n.workers[k];
      ClaimedAs(n, k, i, w.cap, w.expected, n.clock, None, None, Act(n, Proceed(k)))
  {
    var w := n.workers[k];
    ClaimedVerdict(n, k, i, w.cap, w.expected, n.clock, None, None);
    hide Sound, ClaimedAs, Claimed, Step, After, PlanReservation, GrantOf, RecordedState, Reconciling, RetryIsSafe,
      MaySubmit;
  }

  ghost predicate ClaimedAs(n: Net, k: nat, i: nat, cap: Capability, expected: int, now: Time, until: Option<Time>,
                            scope: Option<string>, m: Net)
    requires k < |n.workers| && i < |n.state.operations|
  {
    var op := n.state.operations[i];
    var granted := Attempted(op, now, until, scope);
    m == if !n.state.facts.reconciliationRequired && !op.reconciliationRequired && ClaimGrants(op, expected, now)
         then n.(workers := n.workers[k := Granted(granted, cap)],
                 state := n.state.(operations := n.state.operations[i := granted]))
         else n.(workers := n.workers[k := Idle])
  }

  lemma ClaimedVerdict(n: Net, k: nat, i: nat, cap: Capability, expected: int, now: Time, until: Option<Time>,
                       scope: Option<string>)
    requires Sound(n.state) && k < |n.workers| && i < |n.state.operations| && 0 <= expected
    ensures ClaimedAs(n, k, i, cap, expected, now, until, scope,
                      Claimed(n, k, cap, n.state.operations[i].operationId, expected, now, until, scope))
  {
    var op := n.state.operations[i];
    FindsItself(n.state, i);
    assert RecordSound(n.state.facts, op);
    ClaimVerdict(n.state, i, expected, now, until, scope);
    SubmissionVerdict(n.state.facts, op, expected, now, until, scope);
    hide Sound, RecordSound, Step, PlanSubmission, ClaimGrants, Attempted, IndexOf;
  }

  /** Executing an intent that is already retained changes nothing, and dispatches it only while it is still
      reserved: an uncertain one is not submitted again without reconciling it. */
  lemma DuplicateVerdict(n: Net, k: nat, i: nat)
    requires Sound(n.state) && k < |n.workers| && n.workers[k].Reserving? && i < |n.state.operations|
    requires n.workers[k].intent.operationId == n.state.operations[i].operationId
    ensures var w := n.workers[k];
      var op := n.state.operations[i];
      Act(n, Proceed(k))
      == n.(workers := n.workers[k := if w.intent.request == op.parametersDigest && op.state == Reserved
                                      then Claiming(op, w.cap, w.started) else Idle])
  {
    FindsItself(n.state, i);
    hide Sound, IndexOf;
    assert Step(n.state, Reserve(n.workers[k].intent)) == StepReserve(n.state, n.workers[k].intent);
  }

  /** A reconciling worker asks for one more attempt exactly when resubmission was requested, nothing requires
      reconciliation, the operation is uncertain, and a call made now would be in time. */
  lemma RetryVerdict(n: Net, k: nat)
    requires k < |n.workers| && n.workers[k].Deciding?
    ensures var w := n.workers[k];
      var retries := && w.resubmit
                     && !w.op.reconciliationRequired && !n.state.facts.reconciliationRequired
                     && w.op.state in {Unknown, Submitting}
                     && w.op.retryUntil.Some?
                     && InTime(Call(w.op, w.cap, n.clock), n.timeout);
      Act(n, Proceed(k)) == n.(workers := n.workers[k := if retries then Retrying(w.op, w.expected, w.cap) else Idle])
  {
  }

  /** Reconciliation takes up exactly the retained operations that are open work and were ever claimed. */
  lemma ReconcileVerdict(n: Net, k: nat, i: nat, cap: Capability, resubmit: bool)
    requires Sound(n.state) && k < |n.workers| && n.workers[k].Idle? && i < |n.state.operations|
    ensures var op := n.state.operations[i];
      var takes := op.state != Reserved && (op.IsActive() || op.reconciliationRequired || op.pendingResponseAttempts != []);
      Act(n, BeginReconcile(k, op.operationId, cap, resubmit))
      == n.(workers := n.workers[k := if takes then Looking(op, cap, resubmit) else Idle])
  {
    FindsItself(n.state, i);
    hide Sound;
  }

  /** The answer of a query is recorded as evidence that retires no response. If it is evidence about the operation,
      the worker goes on with the recorded operation and the attempts it saw before it asked; otherwise it retains
      the safe fields and stops. */
  lemma AnswerVerdict(n: Net, k: nat, i: nat)
    requires Sound(n.state) && k < |n.workers| && n.workers[k].Answered? && i < |n.state.operations|
    requires n.workers[k].op.operationId == n.state.operations[i].operationId
    ensures var w := n.workers[k];
      var op := n.state.operations[i];
      var m := Act(n, Proceed(k));
      && m == n.(workers := m.workers, state := m.state)
      && if WellFormed(op, w.answer) then
           && RecordedAs(n.state, i, w.answer, None, m.state)
           && m.workers == n.workers[k := Deciding(m.state.operations[i], w.op.submissionAttempts, w.cap, w.resubmit)]
         else
           && m.workers == n.workers[k := Idle]
           && m.state == n.state.(operations := n.state.operations[i := op.(
                reconciliationRequired := true,
                recoveryEvidence := Added(op.recoveryEvidence, RecoveryEvidence(Some(w.answer.state), w.answer.settledAmount,
                                                                                w.answer.correlation, w.answer.externalId)))])
  {
    var w := n.workers[k];
    hide Act, Sound, Step, WellFormed, RecordedAs, RecordedState, SafeFields, IndexOf;
    RecordedVerdict(n.state, i, w.answer, None);
    RecordedKeepsPlace(n.state, i, w.answer);
    AnswerStep(n, k);
  }

  lemma AnswerStep(n: Net, k: nat)
    requires k < |n.workers| && n.workers[k].Answered?
    ensures var w := n.workers[k];
      var recorded := Step(n.state, RecordOutcome(w.op.operationId, w.answer, None));
      var index := IndexOf(n.state.operations, w.op.operationId);
      Act(n, Proceed(k))
      == n.(workers := n.workers[k := if recorded.Ok? && index.Some? && index.value < |recorded.value.operations|
                                      then Deciding(recorded.value.operations[index.value], w.op.submissionAttempts, w.cap,
                                                    w.resubmit)
                                      else Idle],
            state := RecordedState(n.state, w.op.operationId, w.answer, None))
  {
    hide Step, RecordedState, PlanReservation, GrantOf, RetryIsSafe, MaySubmit, After, Reconciling, IndexOf;
  }

  /** Recording, or retaining the safe fields of what is no evidence about the operation. */
  lemma RecordedVerdict(s: State, i: nat, o: Outcome, attempt: Option<int>)
    requires Sound(s) && i < |s.operations|
    ensures var op := s.operations[i];
      var next := Step(s, RecordOutcome(op.operationId, o, attempt));
      && IndexOf(s.operations, op.operationId) == Some(i)
      && (next.Ok? <==> WellFormed(op, o) && (attempt.Some? ==> 0 < attempt.value <= op.submissionAttempts))
      && RecordedState(s, op.operationId, o, attempt)
         == (if next.Ok? then next.value
             else s.(operations := s.operations[i := op.(
                       reconciliationRequired := true,
                       recoveryEvidence := Added(op.recoveryEvidence, SafeFields(o)))]))
      && (next.Ok? ==> RecordedAs(s, i, o, attempt, next.value))
  {
    FindsItself(s, i);
    OutcomeVerdict(s, i, o, attempt);
    FailureVerdict(s, i, SafeFields(o));
    hide Sound, Step, WellFormed, RecordedAs, SafeFields, IndexOf;
  }

  /** The response of a submission retires exactly the attempt it answers, if it is evidence about the operation;
      otherwise its safe fields stay with the operation, and the attempt stays pending. */
  lemma ResponseVerdict(n: Net, k: nat, i: nat)
    requires Sound(n.state) && k < |n.workers| && n.workers[k].Responded? && i < |n.state.operations|
    requires n.workers[k].op.operationId == n.state.operations[i].operationId
    requires 0 < n.workers[k].op.submissionAttempts <= n.state.operations[i].submissionAttempts
    ensures var w := n.workers[k];
      var op := n.state.operations[i];
      var m := Act(n, Proceed(k));
      && m == n.(workers := n.workers[k := Idle], state := m.state)
      && if WellFormed(op, w.response)
         then RecordedAs(n.state, i, w.response, Some(w.op.submissionAttempts), m.state)
         else m.state == n.state.(operations := n.state.operations[i := op.(
                reconciliationRequired := true,
                recoveryEvidence := Added(op.recoveryEvidence, SafeFields(w.response)))])
  {
    hide Sound, Step, WellFormed, RecordedAs, RecordedState, SafeFields, IndexOf, PlanReservation, GrantOf, RetryIsSafe,
      MaySubmit, After, Reconciling;
    RecordedVerdict(n.state, i, n.workers[k].response, Some(n.workers[k].op.submissionAttempts));
  }

  lemma RecordedKeepsPlace(s: State, i: nat, o: Outcome)
    requires i < |s.operations|
    ensures forall t :: RecordedAs(s, i, o, None, t) ==> |t.operations| == |s.operations|
    ensures SafeFields(o) == RecoveryEvidence(Some(o.state), o.settledAmount, o.correlation, o.externalId)
  {
    hide OperationAfter, FactsAfter, OtherAfter, Takes, AnyActiveRefund;
  }

  // ---- undisturbed workers ----

  lemma PlayedOne(n: Net, events: seq<Event>, e: Event)
    ensures Played(n, events + [e]) == Act(Played(n, events), e)
  {
    assert (events + [e])[..|events|] == events;
  }

  lemma PlayedFour(n: Net, a: Event, b: Event, c: Event, d: Event)
    ensures Played(n, [a, b, c, d]) == Act(Act(Act(Act(n, a), b), c), d)
  {
    hide Act;
    assert [a] == [] + [a] && [a, b] == [a] + [b] && [a, b, c] == [a, b] + [c] && [a, b, c, d] == [a, b, c] + [d];
    PlayedOne(n, [], a);
    PlayedOne(n, [a], b);
    PlayedOne(n, [a, b], c);
    PlayedOne(n, [a, b, c], d);
  }

  /** The window a provider declares leaves room for a call made at once. */
  predicate RoomAtOnce(cap: Capability, timeout: Time) {
    0 <= timeout && (cap.idempotency.Some? ==> timeout < cap.idempotency.value.window)
  }

  /** The first attempt of a reserved record, under the frozen terms of `cap`. */
  function FirstAttempt(op: OperationRecord, cap: Capability, now: Time): OperationRecord {
    op.(state := Submitting, submissionAttempts := 1, pendingResponseAttempts := [1], submittedAt := Some(now),
        retryUntil := Deadline(cap, now),
        idempotencyScope := match cap.idempotency case None => None case Some(i) => Some(i.scope))
  }

  lemma ReservedIsFirst(f: PaymentFacts, op: OperationRecord, cap: Capability, now: Time)
    requires RecordSound(f, op) && op.state == Reserved
    ensures ClaimGrants(op, op.submissionAttempts, now) && op.submissionAttempts == 0
    ensures Attempted(op, now, Deadline(cap, now), Scope(cap))
         == FirstAttempt(op, cap, now)
  {
    PendingIsClaimed(op);
    assert [] + [1] == [1];
  }

  lemma FirstIsInTime(op: OperationRecord, cap: Capability, now: Time, timeout: Time)
    requires RoomAtOnce(cap, timeout)
    ensures InTime(Call(FirstAttempt(op, cap, now), cap, now), timeout)
  {
  }

  /** Claiming a reserved operation, and calling the provider. */
  lemma ClaimedIsSubmitted(n: Net, k: nat, i: nat, cap: Capability)
    requires Sound(n.state) && k < |n.workers| && i < |n.state.operations| && RoomAtOnce(cap, n.timeout)
    requires n.workers[k] == Claiming(n.state.operations[i], cap, n.clock)
    requires n.state.operations[i].state == Reserved
    requires !n.state.facts.reconciliationRequired && !n.state.operations[i].reconciliationRequired
    ensures var submitted := FirstAttempt(n.state.operations[i], cap, n.clock);
      Act(Act(n, Proceed(k)), Proceed(k))
      == n.(workers := n.workers[k := Waiting(submitted)],
            state := n.state.(operations := n.state.operations[i := submitted]),
            calls := n.calls + [Call(submitted, cap, n.clock)])
  {
    var op := n.state.operations[i];
    var first := FirstAttempt(op, cap, n.clock);
    assert RecordSound(n.state.facts, op);
    ReservedIsFirst(n.state.facts, op, cap, n.clock);
    ClaimingVerdict(n, k, i);
    var m := Act(n, Proceed(k));
    hide Sound, RecordSound, Act, ClaimGrants, Attempted, FirstAttempt;
    assert m.workers[k] == Granted(first, cap);
    SubmissionVerdicts(m, Proceed(k));
    assert InTime(Call(first, cap, n.clock), n.timeout) by {
      FirstIsInTime(op, cap, n.clock, n.timeout);
    }
    assert m.workers[k := Waiting(first)] == n.workers[k := Waiting(first)];
  }

  /** A worker that begins to execute a new, reservable intent and is not disturbed reserves it, claims its first
      attempt under the declared terms, and hands exactly that record to the provider. */
  lemma ExecutionSubmits(n: Net, k: nat, intent: Intent, cap: Capability)
    requires Sound(n.state) && k < |n.workers| && n.workers[k].Idle? && RoomAtOnce(cap, n.timeout)
    requires (forall r :: r in n.state.operations ==> r.operationId != intent.operationId) && Reservable(n.state, intent)
    ensures var m := Played(n, [BeginExecute(k, intent, cap), Proceed(k), Proceed(k), Proceed(k)]);
      var last := |n.state.operations|;
      && |m.state.operations| == last + 1
      && m.state.operations[..last] == n.state.operations
      && m.calls == n.calls + [Call(m.state.operations[last], cap, n.clock)]
      && exists r :: ReservedAs(n.state, intent, r) && m.state.operations[last] == FirstAttempt(r, cap, n.clock)
  {
    var events := [BeginExecute(k, intent, cap), Proceed(k), Proceed(k), Proceed(k)];
    PlayedFour(n, BeginExecute(k, intent, cap), Proceed(k), Proceed(k), Proceed(k));
    var a := Act(n, BeginExecute(k, intent, cap));
    var b := Act(a, Proceed(k));
    ReservedIsClaimed(n, k, intent, cap);
    NothingFlagged(n.state, intent, b.state);
    ClaimedIsSubmitted(b, k, |n.state.operations|, cap);
    hide Act, Played, Sound, Reservable, ReservedAs, FirstAttempt;
  }

  lemma ReservedIsClaimed(n: Net, k: nat, intent: Intent, cap: Capability)
    requires Sound(n.state) && k < |n.workers| && n.workers[k].Idle?
    requires (forall r :: r in n.state.operations ==> r.operationId != intent.operationId) && Reservable(n.state, intent)
    ensures var m := Act(Act(n, BeginExecute(k, intent, cap)), Proceed(k));
      var last := |n.state.operations|;
      && Step(n.state, Reserve(intent)) == Ok(m.state)
      && Sound(m.state)
      && |m.state.operations| == last + 1
      && m.state.operations[..last] == n.state.operations
      && ReservedAs(n.state, intent, m.state.operations[last])
      && m == n.(workers := n.workers[k := Claiming(m.state.operations[last], cap, n.clock)], state := m.state)
  {
    ReservationVerdict(n.state, intent);
    ReservationAccepted(n.state, intent);
    AfterDevelops(n.state, Reserve(intent));
    CreatedIsLast(n.state, intent);
    hide Sound, Reservable, PlanReservation, Step, NextSequence, CancellableAt;
    var reserved := After(n.state, Reserve(intent)).operations[|n.state.operations|];
    assert n.workers[k := Reserving(intent, cap, n.clock)][k := Claiming(reserved, cap, n.clock)]
        == n.workers[k := Claiming(reserved, cap, n.clock)];
  }

  lemma CreatedIsLast(s: State, intent: Intent)
    requires PlanReservation(s.facts, s.operations, intent).Ok? && PlanReservation(s.facts, s.operations, intent).value.created
    ensures var t := After(s, Reserve(intent));
      |t.operations| == |s.operations| + 1
      && t.operations[|s.operations|] == PlanReservation(s.facts, s.operations, intent).value.operation
  {
    hide PlanReservation;
    assert Step(s, Reserve(intent)) == StepReserve(s, intent);
  }

  /** A fresh reservation can be claimed at once. */
  lemma NothingFlagged(s: State, intent: Intent, t: State)
    requires Sound(s) && Reservable(s, intent) && Step(s, Reserve(intent)) == Ok(t)
    requires forall r :: r in s.operations ==> r.operationId != intent.operationId
    ensures !t.facts.reconciliationRequired
    ensures |t.operations| == |s.operations| + 1
    ensures var r := t.operations[|s.operations|]; r.state == Reserved && !r.reconciliationRequired
  {
    ReservationVerdict(s, intent);
    hide Sound, Step, NextSequence, CancellableAt;
  }

  /** So does a worker that executes a retained intent again while it is still only reserved. */
  lemma ResumptionSubmits(n: Net, k: nat, i: nat, intent: Intent, cap: Capability)
    requires Sound(n.state) && k < |n.workers| && n.workers[k].Idle? && i < |n.state.operations| && RoomAtOnce(cap, n.timeout)
    requires var op := n.state.operations[i];
      && intent == Intent(op.operationId, op.parametersDigest)
      && op.state == Reserved && !op.reconciliationRequired && !n.state.facts.reconciliationRequired
    ensures var submitted := FirstAttempt(n.state.operations[i], cap, n.clock);
      var m := Played(n, [BeginExecute(k, intent, cap), Proceed(k), Proceed(k), Proceed(k)]);
      && m.state == n.state.(operations := n.state.operations[i := submitted])
      && m.calls == n.calls + [Call(submitted, cap, n.clock)]
  {
    hide Act, Played, Sound, FirstAttempt;
    PlayedFour(n, BeginExecute(k, intent, cap), Proceed(k), Proceed(k), Proceed(k));
    ResumedIsClaimed(n, k, i, intent, cap);
    ClaimedIsSubmitted(Act(Act(n, BeginExecute(k, intent, cap)), Proceed(k)), k, i, cap);
  }

  lemma ResumedIsClaimed(n: Net, k: nat, i: nat, intent: Intent, cap: Capability)
    requires Sound(n.state) && k < |n.workers| && n.workers[k].Idle? && i < |n.state.operations|
    requires intent == Intent(n.state.operations[i].operationId, n.state.operations[i].parametersDigest)
    requires n.state.operations[i].state == Reserved
    ensures Act(Act(n, BeginExecute(k, intent, cap)), Proceed(k))
         == n.(workers := n.workers[k := Claiming(n.state.operations[i], cap, n.clock)])
  {
    FindsItself(n.state, i);
    hide Sound, IndexOf;
    assert n.workers[k := Reserving(intent, cap, n.clock)][k := Claiming(n.state.operations[i], cap, n.clock)]
        == n.workers[k := Claiming(n.state.operations[i], cap, n.clock)];
    assert Step(n.state, Reserve(intent)) == StepReserve(n.state, intent);
  }

  /** A worker asked to resubmit an uncertain operation, of which nothing requires reconciliation and whose frozen
      terms still hold, submits it once more if it is not disturbed and there is nothing to query. */
  lemma RetrySubmits(n: Net, k: nat, i: nat, cap: Capability)
    requires Sound(n.state) && k < |n.workers| && n.workers[k].Idle? && i < |n.state.operations| && 0 <= n.timeout
    requires !cap.canLookUp
    requires var op := n.state.operations[i];
      && op.state in {Unknown, Submitting} && 0 < op.submissionAttempts && op.retryUntil.Some?
      && !op.reconciliationRequired && !n.state.facts.reconciliationRequired
      && InTime(Call(op, cap, n.clock), n.timeout)
    ensures var op := n.state.operations[i];
      var next := op.submissionAttempts + 1;
      var submitted := op.(state := Submitting, submissionAttempts := next,
                           pendingResponseAttempts := op.pendingResponseAttempts + [next]);
      var m := Act(Played(n, [BeginReconcile(k, op.operationId, cap, true), Proceed(k), Proceed(k), Proceed(k)]), Proceed(k));
      && m.state == n.state.(operations := n.state.operations[i := submitted])
      && m.calls == n.calls + [Call(submitted, cap, n.clock)]
  {
    hide Act, Played, Sound, InTime;
    var op := n.state.operations[i];
    var id := op.operationId;
    PlayedFour(n, BeginReconcile(k, id, cap, true), Proceed(k), Proceed(k), Proceed(k));
    var a := Act(n, BeginReconcile(k, id, cap, true));
    var b := Act(a, Proceed(k));
    var c := Act(b, Proceed(k));
    ReconcileVerdict(n, k, i, cap, true);
    NothingToQuery(a, k);
    RetryVerdict(b, k);
    assert c == n.(workers := n.workers[k := Retrying(op, op.submissionAttempts, cap)]);
    RetryIsSubmitted(c, k, i, cap);
  }

  lemma NothingToQuery(n: Net, k: nat)
    requires k < |n.workers| && n.workers[k].Looking? && !n.workers[k].cap.canLookUp
    ensures var w := n.workers[k];
      Act(n, Proceed(k)) == n.(workers := n.workers[k := Deciding(w.op, w.op.submissionAttempts, w.cap, w.resubmit)])
  {
    hide Step, PlanReservation, GrantOf, RecordedState, RetryIsSafe;
  }

  lemma RetryIsSubmitted(n: Net, k: nat, i: nat, cap: Capability)
    requires Sound(n.state) && k < |n.workers| && i < |n.state.operations| && 0 <= n.timeout
    requires var op := n.state.operations[i];
      && n.workers[k] == Retrying(op, op.submissionAttempts, cap)
      && op.state in {Unknown, Submitting} && 0 < op.submissionAttempts && op.retryUntil.Some?
      && !op.reconciliationRequired && !n.state.facts.reconciliationRequired
      && InTime(Call(op, cap, n.clock), n.timeout)
    ensures var op := n.state.operations[i];
      var next := op.submissionAttempts + 1;
      var submitted := op.(state := Submitting, submissionAttempts := next,
                           pendingResponseAttempts := op.pendingResponseAttempts + [next]);
      var m := Act(Act(n, Proceed(k)), Proceed(k));
      && m.state == n.state.(operations := n.state.operations[i := submitted])
      && m.calls == n.calls + [Call(submitted, cap, n.clock)]
  {
    var op := n.state.operations[i];
    RetryingVerdict(n, k, i);
    var m := Act(n, Proceed(k));
    hide Sound, RecordSound, Act;
    assert m.workers[k] == Granted(Attempted(op, n.clock, None, None), cap);
    SubmissionVerdicts(m, Proceed(k));
  }
}
