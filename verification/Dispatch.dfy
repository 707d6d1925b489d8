/** The dispatch protocol: any number of workers that reserve, claim, submit and reconcile against one
    payment, interleaved with callbacks, operators, crashes, lost acknowledgements and the clock. */
module Dispatch {
  import opened Wrappers
  import opened Records
  import opened Rules
  import opened Effects
  import opened System
  import opened History
  import opened Steps
  import opened Decisions
  import opened Accountability
  import opened Evidence

  // ---- pure tests of the flow ----

  /** What a provider declares for an operation; the scope and the window come together. */
  datatype Capability = Capability(idempotency: Option<Idempotency>, canLookUp: bool)

  datatype Idempotency = Idempotency(scope: string, window: Time)

  function Scope(cap: Capability): Option<string> {
    match cap.idempotency case None => None case Some(i) => Some(i.scope)
  }

  function Earlier(a: Time, b: Time): Time {
    if a <= b then a else b
  }

  predicate WithinSubmissionWindow(op: OperationRecord, cap: Capability, now: Time, timeout: Time) {
    && op.submittedAt.Some?
    && op.retryUntil.Some?
    && cap.idempotency.Some?
    && Scope(cap) == op.idempotencyScope
    && op.submittedAt.value <= now
    && now + timeout < Earlier(op.retryUntil.value, op.submittedAt.value + cap.idempotency.value.window)
  }

  predicate RetryIsSafe(op: OperationRecord, facts: PaymentFacts, cap: Capability, now: Time, timeout: Time) {
    && !op.reconciliationRequired
    && !facts.reconciliationRequired
    && (op.state.Unknown? || op.state.Submitting?)
    && WithinSubmissionWindow(op, cap, now, timeout)
  }

  /** Immediately before provider I/O: a frozen deadline must still leave room for the call. */
  predicate MaySubmit(op: OperationRecord, cap: Capability, now: Time, timeout: Time) {
    op.retryUntil.Some? ==> WithinSubmissionWindow(op, cap, now, timeout)
  }

  // ---- workers ----

  /** Where a worker stands between two of its steps. */
  datatype Worker =
    | Idle
    | Reserving(intent: Intent, cap: Capability, started: Time)
    | Claiming(op: OperationRecord, cap: Capability, started: Time)
    | Looking(op: OperationRecord, cap: Capability, resubmit: bool)
    | Answered(op: OperationRecord, answer: Outcome, cap: Capability, resubmit: bool)
    | Deciding(op: OperationRecord, expected: int, cap: Capability, resubmit: bool)
    | Retrying(op: OperationRecord, expected: int, cap: Capability)
    | Granted(op: OperationRecord, cap: Capability)
    | Waiting(op: OperationRecord)
    | Responded(op: OperationRecord, response: Outcome)

  /** One submission handed to the provider, with the record it was made from and what the provider declared
      for it. */
  datatype Call = Call(op: OperationRecord, cap: Capability, at: Time)

  datatype Net = Net(state: State, workers: seq<Worker>, calls: seq<Call>, clock: Time, timeout: Time)

  datatype Event =
    | BeginExecute(k: nat, intent: Intent, cap: Capability)
    | BeginReconcile(k: nat, operationId: string, cap: Capability, resubmit: bool)
    | LookedUp(k: nat, answer: Option<Outcome>)
    | Responds(k: nat, response: Outcome)
    | Proceed(k: nat)
    | Crash(k: nat)
    | Elsewhere(command: Command)
    | Tick(elapsed: nat)

  function SetWorker(n: Net, k: nat, w: Worker): Net
    requires k < |n.workers|
  {
    n.(workers := n.workers[k := w])
  }

  /** The record a claim granted, if it did. */
  function GrantOf(s: State, id: string, expected: int, now: Time, until: Option<Time>, scope: Option<string>)
    : Option<OperationRecord>
  {
    var index := IndexOf(s.operations, id);
    if index.None? then None
    else
      var plan := PlanSubmission(s.facts, s.operations[index.value], expected, now, until, scope);
      if plan.Ok? && plan.value.granted then Some(plan.value.operation) else None
  }

  function Claimed(n: Net, k: nat, cap: Capability, id: string, expected: int, now: Time, until: Option<Time>,
                   scope: Option<string>): Net
    requires k < |n.workers|
  {
    var grant := GrantOf(n.state, id, expected, now, until, scope);
    SetWorker(n, k, if grant.Some? then Granted(grant.value, cap) else Idle).(
      state := After(n.state, Claim(id, expected, now, until, scope)))
  }

  /** The safe fields of an outcome, as the failure path retains them. */
  function SafeFields(o: Outcome): RecoveryEvidence {
    RecoveryEvidence(Some(o.state), o.settledAmount, o.correlation, o.externalId)
  }

  /** Record an outcome; when it is refused, retain its safe fields instead. */
  function RecordedState(s: State, id: string, o: Outcome, attempt: Option<int>): State {
    match Step(s, RecordOutcome(id, o, attempt))
    case Ok(t) => t
    case Err(_) => After(s, RecordFailure(id, SafeFields(o)))
  }

  /** The next repository access or provider call of a worker. */
  function Progress(n: Net, k: nat): Net
    requires k < |n.workers|
  {
    match n.workers[k]
    case Reserving(intent, cap, started) =>
      var plan := PlanReservation(n.state.facts, n.state.operations, intent);
      SetWorker(n, k, if plan.Ok? && plan.value.operation.state.Reserved?
                      then Claiming(plan.value.operation, cap, started) else Idle).(
        state := After(n.state, Reserve(intent)))
    case Claiming(op, cap, started) =>
      Claimed(n, k, cap, op.operationId, op.submissionAttempts, started,
              match cap.idempotency case None => None case Some(i) => Some(started + i.window), Scope(cap))
    case Looking(op, cap, resubmit) =>
      if cap.canLookUp then n
      else SetWorker(n, k, Deciding(op, op.submissionAttempts, cap, resubmit))
    case Answered(op, answer, cap, resubmit) =>
      var recorded := Step(n.state, RecordOutcome(op.operationId, answer, None));
      var index := IndexOf(n.state.operations, op.operationId);
      SetWorker(n, k, if recorded.Ok? && index.Some? && index.value < |recorded.value.operations|
                      then Deciding(recorded.value.operations[index.value], op.submissionAttempts, cap, resubmit)
                      else Idle).(
        state := RecordedState(n.state, op.operationId, answer, None))
    case Deciding(op, expected, cap, resubmit) =>
      SetWorker(n, k, if resubmit && RetryIsSafe(op, n.state.facts, cap, n.clock, n.timeout)
                      then Retrying(op, expected, cap) else Idle)
    case Retrying(op, expected, cap) =>
      Claimed(n, k, cap, op.operationId, expected, n.clock, None, None)
    case Granted(op, cap) =>
      if MaySubmit(op, cap, n.clock, n.timeout)
      then SetWorker(n, k, Waiting(op)).(calls := n.calls + [Call(op, cap, n.clock)])
      else SetWorker(n, k, Idle)
    case Responded(op, response) =>
      SetWorker(n, k, Idle).(
        state := RecordedState(n.state, op.operationId, response, Some(op.submissionAttempts)))
    case _ => n
  }

  /** Reconciliation starts from a retained operation that is still open work. */
  function Reconciling(s: State, id: string, cap: Capability, resubmit: bool): Worker {
    var index := IndexOf(s.operations, id);
    if index.None? then Idle
    else
      var op := s.operations[index.value];
      if !op.Unresolved() || op.state.Reserved? then Idle else Looking(op, cap, resubmit)
  }

  function Act(n: Net, e: Event): Net {
    match e
    case BeginExecute(k, intent, cap) =>
      if k < |n.workers| && n.workers[k].Idle? then SetWorker(n, k, Reserving(intent, cap, n.clock)) else n
    case BeginReconcile(k, id, cap, resubmit) =>
      if k < |n.workers| && n.workers[k].Idle? then SetWorker(n, k, Reconciling(n.state, id, cap, resubmit)) else n
    case LookedUp(k, answer) =>
      if k < |n.workers| && n.workers[k].Looking? && n.workers[k].cap.canLookUp then
        var w := n.workers[k];
        // Without an answer the worker stops; the retained record is left as it is.
        SetWorker(n, k, if answer.Some? then Answered(w.op, answer.value, w.cap, w.resubmit) else Idle)
      else n
    case Responds(k, response) =>
      if k < |n.workers| && n.workers[k].Waiting? then SetWorker(n, k, Responded(n.workers[k].op, response)) else n
    case Proceed(k) => if k < |n.workers| then Progress(n, k) else n
    case Crash(k) => if k < |n.workers| then SetWorker(n, k, Idle) else n
    case Elsewhere(c) => n.(state := After(n.state, c))
    case Tick(elapsed) => n.(clock := n.clock + elapsed)
  }

  function Played(n: Net, events: seq<Event>): Net {
    if events == [] then n
    else Act(Played(n, events[..|events| - 1]), events[|events| - 1])
  }

  ghost predicate Start(n: Net) {
    && Initial(n.state)
    && n.calls == []
    && (forall k :: 0 <= k < |n.workers| ==> n.workers[k].Idle?)
  }

  // ---- the invariant ----

  /** A committed submission attempt of a retained operation, perhaps developed since. */
  ghost predicate PledgedAt(s: State, op: OperationRecord, i: int) {
    0 <= i < |s.operations| && Forward(op, s.operations[i])
  }

  ghost predicate Pledged(s: State, op: OperationRecord) {
    && 0 < op.submissionAttempts
    && exists i :: PledgedAt(s, op, i)
  }

  /** Two submissions are of different operations or different attempts. */
  predicate Apart(a: OperationRecord, b: OperationRecord) {
    a.operationId != b.operationId || a.submissionAttempts != b.submissionAttempts
  }

  /** A call with a frozen deadline is made under the key scope frozen with it, and leaves room for the whole
      call before that deadline and inside the window the provider declares, counted from the first attempt. */
  predicate InTime(c: Call, timeout: Time) {
    c.op.retryUntil.Some? ==>
      && c.op.submittedAt.Some?
      && c.op.submittedAt.value <= c.at
      && c.at + timeout < c.op.retryUntil.value
      && c.cap.idempotency.Some?
      && c.op.idempotencyScope == Some(c.cap.idempotency.value.scope)
      && c.at + timeout < c.op.submittedAt.value + c.cap.idempotency.value.window
  }

  ghost predicate CallsSound(n: Net) {
    && (forall a :: 0 <= a < |n.calls| ==> Pledged(n.state, n.calls[a].op) && InTime(n.calls[a], n.timeout))
    && (forall a, b :: 0 <= a < b < |n.calls| ==> Apart(n.calls[a].op, n.calls[b].op))
  }

  ghost predicate GrantsSound(n: Net) {
    && (forall k :: 0 <= k < |n.workers| && n.workers[k].Granted? ==> Pledged(n.state, n.workers[k].op))
    && (forall k, l :: 0 <= k < l < |n.workers| && n.workers[k].Granted? && n.workers[l].Granted? ==>
          Apart(n.workers[k].op, n.workers[l].op))
    && (forall a, k :: 0 <= a < |n.calls| && 0 <= k < |n.workers| && n.workers[k].Granted? ==>
          Apart(n.calls[a].op, n.workers[k].op))
  }

  ghost predicate Inv(n: Net) {
    Sound(n.state) && CallsSound(n) && GrantsSound(n)
  }

  // ---- preservation ----

  lemma StillPledged(s: State, t: State, op: OperationRecord)
    requires Pledged(s, op) && Develops(s, t)
    ensures Pledged(t, op)
  {
    hide Forward, FactsForward;
    var i :| PledgedAt(s, op, i);
    ForwardTransitive(op, s.operations[i], t.operations[i]);
    assert PledgedAt(t, op, i);
  }

  /** Developing the repository state alone, or with workers that hold no new grant. */
  lemma Developed(n: Net, m: Net)
    requires Inv(n) && Sound(m.state) && Develops(n.state, m.state)
    requires m.calls == n.calls && m.timeout == n.timeout && |m.workers| == |n.workers|
    requires forall k :: 0 <= k < |n.workers| ==> m.workers[k] == n.workers[k] || !m.workers[k].Granted?
    ensures Inv(m)
  {
    hide Sound, Develops, Apart, InTime;
    forall a | 0 <= a < |m.calls|
      ensures Pledged(m.state, m.calls[a].op)
    {
      assert Pledged(n.state, n.calls[a].op) && InTime(n.calls[a], n.timeout);
      StillPledged(n.state, m.state, n.calls[a].op);
    }
    forall k | 0 <= k < |m.workers| && m.workers[k].Granted?
      ensures Pledged(m.state, m.workers[k].op)
    {
      StillPledged(n.state, m.state, n.workers[k].op);
    }
  }

  /** A granted claim is a new attempt: later than every attempt of the operation so far. */
  lemma GrantIsNew(s: State, id: string, expected: int, now: Time, until: Option<Time>, scope: Option<string>)
    requires Sound(s) && GrantOf(s, id, expected, now, until, scope).Some?
    ensures var t := After(s, Claim(id, expected, now, until, scope));
      var op := GrantOf(s, id, expected, now, until, scope).value;
      && Sound(t) && Develops(s, t)
      && Pledged(t, op)
      && (forall earlier :: Pledged(s, earlier) ==> Apart(earlier, op))
  {
    var c := Claim(id, expected, now, until, scope);
    var t := After(s, c);
    var op := GrantOf(s, id, expected, now, until, scope).value;
    var i := IndexOf(s.operations, id).value;
    AfterDevelops(s, c);
    GrantCounts(s.facts, s.operations[i], expected, now, until, scope);
    assert t.operations[i] == op;
    assert RecordSound(s.facts, s.operations[i]);
    ForwardReflexive(op);
    assert PledgedAt(t, op, i);
    forall earlier | Pledged(s, earlier)
      ensures Apart(earlier, op)
    {
      EarlierAttempt(s, earlier, i);
    }
  }

  lemma GrantCounts(f: PaymentFacts, r: OperationRecord, expected: int, now: Time, until: Option<Time>,
                    scope: Option<string>)
    requires PlanSubmission(f, r, expected, now, until, scope).Ok?
    requires PlanSubmission(f, r, expected, now, until, scope).value.granted
    ensures var op := PlanSubmission(f, r, expected, now, until, scope).value.operation;
      op.operationId == r.operationId && op.submissionAttempts == r.submissionAttempts + 1
  {
  }

  lemma EarlierAttempt(s: State, earlier: OperationRecord, i: nat)
    requires Sound(s) && Pledged(s, earlier) && i < |s.operations|
    ensures earlier.operationId == s.operations[i].operationId ==>
      PledgedAt(s, earlier, i) && earlier.submissionAttempts <= s.operations[i].submissionAttempts
  {
    var j :| PledgedAt(s, earlier, j);
    if earlier.operationId == s.operations[i].operationId {
      assert i == j;
    }
  }

  lemma ClaimedInv(n: Net, k: nat, cap: Capability, id: string, expected: int, now: Time, until: Option<Time>,
                   scope: Option<string>)
    requires Inv(n) && k < |n.workers|
    ensures Inv(Claimed(n, k, cap, id, expected, now, until, scope))
  {
    hide Sound, Develops, Apart, InTime, Step, After, GrantOf, Pledged;
    var c := Claim(id, expected, now, until, scope);
    var m := Claimed(n, k, cap, id, expected, now, until, scope);
    AfterDevelops(n.state, c);
    var grant := GrantOf(n.state, id, expected, now, until, scope);
    Developed(n, m.(workers := n.workers[k := Idle]));
    if grant.Some? {
      GrantIsNew(n.state, id, expected, now, until, scope);
      GrantedInv(n, m.(workers := n.workers[k := Idle]), m, k, grant.value);
    }
  }

  /** A worker that holds a new grant joins the others. */
  lemma GrantedInv(n: Net, idle: Net, m: Net, k: nat, op: OperationRecord)
    requires Inv(n) && Inv(idle) && k < |n.workers| && idle.workers == n.workers[k := Idle]
    requires m == idle.(workers := m.workers) && |m.workers| == |n.workers|
    requires m.workers[k].Granted? && m.workers[k].op == op
    requires forall l :: 0 <= l < |n.workers| && l != k ==> m.workers[l] == n.workers[l]
    requires idle.calls == n.calls
    requires Pledged(m.state, op) && forall earlier :: Pledged(n.state, earlier) ==> Apart(earlier, op)
    ensures Inv(m)
  {
    hide Sound, Pledged, InTime;
    forall a | 0 <= a < |m.calls|
      ensures Apart(m.calls[a].op, op)
    {
      assert Pledged(n.state, n.calls[a].op);
    }
    forall l | 0 <= l < |m.workers| && l != k && m.workers[l].Granted?
      ensures Apart(m.workers[l].op, op) && Apart(op, m.workers[l].op)
    {
      assert Pledged(n.state, n.workers[l].op);
    }
    forall l | 0 <= l < |m.workers| && m.workers[l].Granted?
      ensures Pledged(m.state, m.workers[l].op)
    {
      assert l != k ==> idle.workers[l] == m.workers[l];
    }
    forall a, l | 0 <= a < |m.calls| && 0 <= l < |m.workers| && m.workers[l].Granted?
      ensures Apart(m.calls[a].op, m.workers[l].op)
    {
      assert l != k ==> n.workers[l] == m.workers[l];
    }
    forall l, j | 0 <= l < j < |m.workers| && m.workers[l].Granted? && m.workers[j].Granted?
      ensures Apart(m.workers[l].op, m.workers[j].op)
    {
      assert l != k && j != k ==> n.workers[l] == m.workers[l] && n.workers[j] == m.workers[j];
    }
    assert GrantsSound(m);
    assert CallsSound(m);
  }

  /** Using up a grant in a call moves it from the workers to the log. */
  lemma CalledInv(n: Net, k: nat, op: OperationRecord, cap: Capability)
    requires Inv(n) && k < |n.workers| && n.workers[k] == Granted(op, cap)
    requires MaySubmit(op, cap, n.clock, n.timeout)
    ensures Inv(SetWorker(n, k, Waiting(op)).(calls := n.calls + [Call(op, cap, n.clock)]))
  {
    hide Sound, Pledged;
  }

  lemma RecordedDevelops(s: State, id: string, o: Outcome, attempt: Option<int>)
    requires Sound(s)
    ensures Sound(RecordedState(s, id, o, attempt)) && Develops(s, RecordedState(s, id, o, attempt))
  {
    hide Sound, Develops, Step;
    AfterDevelops(s, RecordOutcome(id, o, attempt));
    AfterDevelops(s, RecordFailure(id, SafeFields(o)));
  }

  lemma ProgressInv(n: Net, k: nat)
    requires Inv(n) && k < |n.workers|
    ensures Inv(Progress(n, k))
  {
    hide Sound, Develops, CallsSound, GrantsSound, Step, After, PlanReservation, PlanSubmission, RecordedState,
      MaySubmit, RetryIsSafe;
    NoObservation(n.state);
    match n.workers[k]
    case Reserving(intent, cap, started) =>
      AfterDevelops(n.state, Reserve(intent));
      Developed(n, Progress(n, k));
    case Claiming(op, cap, started) =>
      ClaimedInv(n, k, cap, op.operationId, op.submissionAttempts, started,
                 match cap.idempotency case None => None case Some(i) => Some(started + i.window), Scope(cap));
    case Looking(op, cap, resubmit) => Developed(n, Progress(n, k));
    case Answered(op, answer, cap, resubmit) =>
      RecordedDevelops(n.state, op.operationId, answer, None);
      Developed(n, Progress(n, k));
    case Deciding(op, expected, cap, resubmit) => Developed(n, Progress(n, k));
    case Retrying(op, expected, cap) =>
      ClaimedInv(n, k, cap, op.operationId, expected, n.clock, None, None);
    case Granted(op, cap) =>
      if MaySubmit(op, cap, n.clock, n.timeout) {
        CalledInv(n, k, op, cap);
      } else {
        Developed(n, Progress(n, k));
      }
    case Responded(op, response) =>
      RecordedDevelops(n.state, op.operationId, response, Some(op.submissionAttempts));
      Developed(n, Progress(n, k));
    case _ =>
  }

  lemma ActInv(n: Net, e: Event)
    requires Inv(n)
    ensures Inv(Act(n, e))
  {
    hide Sound, Develops, CallsSound, GrantsSound, After, Progress, Reconciling;
    NoObservation(n.state);
    match e
    case Proceed(k) =>
      if k < |n.workers| {
        ProgressInv(n, k);
      }
    case Elsewhere(c) =>
      AfterDevelops(n.state, c);
      Developed(n, Act(n, e));
    case BeginReconcile(k, id, cap, resubmit) =>
      ReconcilingHoldsNoGrant(n.state, id, cap, resubmit);
      Developed(n, Act(n, e));
    case _ => Developed(n, Act(n, e));
  }

  lemma ReconcilingHoldsNoGrant(s: State, id: string, cap: Capability, resubmit: bool)
    ensures !Reconciling(s, id, cap, resubmit).Granted?
  {
  }

  lemma {:induction false} HistoryInv(n: Net, events: seq<Event>)
    requires Start(n)
    ensures Inv(Played(n, events)) && Played(n, events).timeout == n.timeout
  {
    if events == [] {
      InitialSound(n.state);
    } else {
      HistoryInv(n, events[..|events| - 1]);
      hide Inv, Progress;
      ActInv(Played(n, events[..|events| - 1]), events[|events| - 1]);
      SameTimeout(Played(n, events[..|events| - 1]), events[|events| - 1]);
    }
  }

  lemma SameTimeout(n: Net, e: Event)
    ensures Act(n, e).timeout == n.timeout
  {
    hide After, Step, PlanReservation, PlanSubmission, RecordedState, Reconciling;
  }

  // ---- what it means for a response ----

  /** A recording that the repository refuses leaves the safe fields of the response instead. */
  lemma RecordedOrRetained(s: State, i: nat, o: Outcome, attempt: Option<int>, commands: seq<Command>)
    requires Sound(s) && i < |s.operations|
    ensures var id := s.operations[i].operationId;
      var t := RecordedState(s, id, o, attempt);
      && i < |Run(t, commands).operations|
      && (|| Step(s, RecordOutcome(id, o, attempt)) == Ok(t)
          || (t.facts == s.facts && SafeFields(o) in Run(t, commands).operations[i].recoveryEvidence))
  {
    hide Step, Sound, Develops, Run, SafeFields;
    var id := s.operations[i].operationId;
    FailureIsKept(s, i, SafeFields(o), commands);
    RecordedDevelops(s, id, o, attempt);
    var t := RecordedState(s, id, o, attempt);
    RunDevelops(t, commands);
    DevelopedAt(s, t, i);
    DevelopedAt(t, Run(t, commands), i);
  }

  /** The attempt of `op` still owes its response, so discovery lists its operation. */
  ghost predicate OpenAt(s: State, op: OperationRecord, i: int) {
    && PledgedAt(s, op, i)
    && op.submissionAttempts in s.operations[i].pendingResponseAttempts
    && s.operations[i].Unresolved()
  }

  ghost predicate Open(s: State, op: OperationRecord) {
    exists i :: OpenAt(s, op, i)
  }

  /** The event commits the response of that very attempt, or a decision about its operation. */
  ghost predicate CommitsResponse(n: Net, e: Event, op: OperationRecord) {
    match e
    case Elsewhere(c) => Answers(c, op.operationId, op.submissionAttempts) && Step(n.state, c).Ok?
    case Proceed(k) =>
      && k < |n.workers|
      && n.workers[k].Responded?
      && !Apart(n.workers[k].op, op)
      && Step(n.state, RecordOutcome(op.operationId, n.workers[k].response, Some(op.submissionAttempts))).Ok?
    case _ => false
  }

  ghost predicate ResponseCommitted(n: Net, events: seq<Event>, op: OperationRecord) {
    exists k :: 0 <= k < |events| && CommitsResponse(Played(n, events[..k]), events[k], op)
  }

  lemma StaysOpen(s: State, c: Command, op: OperationRecord)
    requires Sound(s) && Open(s, op)
    requires Answers(c, op.operationId, op.submissionAttempts) ==> Step(s, c).Err?
    ensures Open(After(s, c), op)
  {
    hide Sound, Step, Revives, Grants;
    var t := After(s, c);
    var i :| OpenAt(s, op, i);
    AfterAccountable(s, c);
    AfterDevelops(s, c);
    ForwardTransitive(op, s.operations[i], t.operations[i]);
    assert OpenAt(t, op, i);
  }

  lemma RecordingStaysOpen(s: State, id: string, o: Outcome, attempt: Option<int>, op: OperationRecord)
    requires Sound(s) && Open(s, op)
    requires id == op.operationId && attempt == Some(op.submissionAttempts) ==>
      Step(s, RecordOutcome(id, o, attempt)).Err?
    ensures Open(RecordedState(s, id, o, attempt), op)
  {
    hide Sound, Step, Open;
    StaysOpen(s, RecordOutcome(id, o, attempt), op);
    StaysOpen(s, RecordFailure(id, SafeFields(o)), op);
  }

  /** Whatever happens next, an open attempt is answered or stays open. */
  lemma EventStaysOpen(n: Net, e: Event, op: OperationRecord)
    requires Sound(n.state) && Open(n.state, op) && !CommitsResponse(n, e, op)
    ensures Open(Act(n, e).state, op)
  {
    hide Sound, Step, Open, After, RecordedState, PlanReservation, GrantOf, RetryIsSafe, MaySubmit, Reconciling;
    match e
    case Elsewhere(c) => StaysOpen(n.state, c, op);
    case Proceed(k) =>
      if k < |n.workers| {
        match n.workers[k]
        case Reserving(intent, cap, started) => StaysOpen(n.state, Reserve(intent), op);
        case Claiming(r, cap, started) =>
          StaysOpen(n.state, Claim(r.operationId, r.submissionAttempts, started,
                                   match cap.idempotency case None => None case Some(i) => Some(started + i.window),
                                   Scope(cap)), op);
        case Answered(r, answer, cap, resubmit) => RecordingStaysOpen(n.state, r.operationId, answer, None, op);
        case Retrying(r, expected, cap) => StaysOpen(n.state, Claim(r.operationId, expected, n.clock, None, None), op);
        case Responded(r, response) =>
          RecordingStaysOpen(n.state, r.operationId, response, Some(r.submissionAttempts), op);
        case _ =>
      }
    case _ =>
  }

  lemma GrantIsOpen(s: State, id: string, expected: int, now: Time, until: Option<Time>, scope: Option<string>)
    requires Sound(s) && GrantOf(s, id, expected, now, until, scope).Some?
    ensures Open(After(s, Claim(id, expected, now, until, scope)), GrantOf(s, id, expected, now, until, scope).value)
  {
    var t := After(s, Claim(id, expected, now, until, scope));
    var op := GrantOf(s, id, expected, now, until, scope).value;
    var i := IndexOf(s.operations, id).value;
    assert t.operations[i] == op;
    hide Sound, PlanSubmission;
    GrantIsPending(s.facts, s.operations[i], expected, now, until, scope);
    ForwardReflexive(op);
    assert OpenAt(t, op, i);
  }

  lemma GrantIsPending(f: PaymentFacts, r: OperationRecord, expected: int, now: Time, until: Option<Time>,
                       scope: Option<string>)
    requires PlanSubmission(f, r, expected, now, until, scope).Ok?
    requires PlanSubmission(f, r, expected, now, until, scope).value.granted
    ensures var op := PlanSubmission(f, r, expected, now, until, scope).value.operation;
      op.submissionAttempts in op.pendingResponseAttempts
  {
  }

  /** Every grant is one that was held before, or a fresh, open attempt; every call was logged before,
      or uses up a grant. */
  lemma NewGrantsAreOpen(n: Net, e: Event)
    requires Sound(n.state)
    ensures var m := Act(n, e);
      && |m.workers| == |n.workers|
      && (forall k :: 0 <= k < |m.workers| && m.workers[k].Granted? ==>
            m.workers[k] == n.workers[k] || Open(m.state, m.workers[k].op))
      && |n.calls| <= |m.calls|
      && (forall a :: 0 <= a < |n.calls| ==> m.calls[a] == n.calls[a])
      && (forall a :: |n.calls| <= a < |m.calls| ==>
            exists k :: 0 <= k < |n.workers| && n.workers[k].Granted? && n.workers[k].op == m.calls[a].op)
  {
    hide Sound, Open, After, RecordedState, PlanReservation, GrantOf, RetryIsSafe, MaySubmit, Reconciling, Step;
    match e
    case BeginReconcile(k, id, cap, resubmit) => ReconcilingHoldsNoGrant(n.state, id, cap, resubmit);
    case Proceed(k) =>
      if k < |n.workers| {
        match n.workers[k]
        case Claiming(op, cap, started) =>
          var until := match cap.idempotency case None => None case Some(i) => Some(started + i.window);
          if GrantOf(n.state, op.operationId, op.submissionAttempts, started, until, Scope(cap)).Some? {
            GrantIsOpen(n.state, op.operationId, op.submissionAttempts, started, until, Scope(cap));
          }
        case Retrying(op, expected, cap) =>
          if GrantOf(n.state, op.operationId, expected, n.clock, None, None).Some? {
            GrantIsOpen(n.state, op.operationId, expected, n.clock, None, None);
          }
        case _ =>
      }
    case _ =>
  }

  /** Everything handed to the provider, or about to be, is answered or open. */
  ghost predicate Followed(n: Net, events: seq<Event>) {
    var m := Played(n, events);
    && (forall a :: 0 <= a < |m.calls| ==> ResponseCommitted(n, events, m.calls[a].op) || Open(m.state, m.calls[a].op))
    && (forall k :: 0 <= k < |m.workers| && m.workers[k].Granted? ==>
          ResponseCommitted(n, events, m.workers[k].op) || Open(m.state, m.workers[k].op))
  }

  lemma StaysFollowed(n: Net, events: seq<Event>, op: OperationRecord)
    requires events != [] && Sound(Played(n, events[..|events| - 1]).state)
    requires var rest := events[..|events| - 1]; ResponseCommitted(n, rest, op) || Open(Played(n, rest).state, op)
    ensures ResponseCommitted(n, events, op) || Open(Played(n, events).state, op)
  {
    hide Sound, Open, Act, CommitsResponse;
    var last := |events| - 1;
    var rest := events[..last];
    if k :| 0 <= k < |rest| && CommitsResponse(Played(n, rest[..k]), rest[k], op) {
      assert rest[..k] == events[..k];
      assert CommitsResponse(Played(n, events[..k]), events[k], op);
    } else if CommitsResponse(Played(n, rest), events[last], op) {
      assert CommitsResponse(Played(n, events[..last]), events[last], op);
    } else {
      EventStaysOpen(Played(n, rest), events[last], op);
    }
  }

  lemma {:induction false} HistoryFollowed(n: Net, events: seq<Event>)
    requires Start(n)
    ensures Followed(n, events)
  {
    if events == [] {
    } else {
      hide Open, ResponseCommitted, Act, Sound, CallsSound, GrantsSound;
      var last := |events| - 1;
      var rest := events[..last];
      var before, after := Played(n, rest), Played(n, events);
      HistoryFollowed(n, rest);
      HistoryInv(n, rest);
      NewGrantsAreOpen(before, events[last]);
      forall a | 0 <= a < |after.calls|
        ensures ResponseCommitted(n, events, after.calls[a].op) || Open(after.state, after.calls[a].op)
      {
        if a < |before.calls| {
          assert after.calls[a] == before.calls[a];
        } else {
          var k :| 0 <= k < |before.workers| && before.workers[k].Granted? && before.workers[k].op == after.calls[a].op;
        }
        StaysFollowed(n, events, after.calls[a].op);
      }
      forall k | 0 <= k < |after.workers| && after.workers[k].Granted?
        ensures ResponseCommitted(n, events, after.workers[k].op) || Open(after.state, after.workers[k].op)
      {
        if after.workers[k] == before.workers[k] {
          StaysFollowed(n, events, after.workers[k].op);
        }
      }
    }
  }

  /** Once a submission was handed to the provider, its attempt stays pending and its operation listed
      as unresolved until the response of that attempt or a decision about the operation is committed,
      whatever workers crash and whoever else calls. */
  lemma CallStaysOpen(n: Net, events: seq<Event>, a: nat)
    requires Start(n) && a < |Played(n, events).calls|
    ensures var m := Played(n, events);
      ResponseCommitted(n, events, m.calls[a].op) || exists i :: OpenAt(m.state, m.calls[a].op, i)
  {
    hide ResponseCommitted, OpenAt, Played;
    HistoryFollowed(n, events);
  }

  // ---- what it means for the provider ----

  /** Every provider call matches an attempt that was committed to the retained operation before it,
      no two calls match the same attempt, and a call with a deadline starts under the frozen key scope with
      more than a full provider timeout left of the deadline and of the provider's window, under any
      interleaving of workers with crashes and other callers. */
  lemma CallsMatchAttempts(n: Net, events: seq<Event>)
    requires Start(n)
    ensures var m := Played(n, events);
      && (forall a :: 0 <= a < |m.calls| ==> Pledged(m.state, m.calls[a].op) && InTime(m.calls[a], n.timeout))
      && (forall a, b :: 0 <= a < b < |m.calls| ==> Apart(m.calls[a].op, m.calls[b].op))
  {
    HistoryInv(n, events);
    hide Sound, InTime, Apart, Played, Pledged;
  }

  /** All calls for one intent carry the same frozen amount, parameters, key, scope and deadline. */
  lemma CallsAreFrozen(n: Net, events: seq<Event>, a: nat, b: nat)
    requires Start(n)
    requires var m := Played(n, events); a < |m.calls| && b < |m.calls| && m.calls[a].op.operationId == m.calls[b].op.operationId
    ensures var x, y := Played(n, events).calls[a].op, Played(n, events).calls[b].op;
      && SameIntent(x, y)
      && x.Key() == y.Key()
      && x.submittedAt == y.submittedAt
      && x.retryUntil == y.retryUntil
      && x.idempotencyScope == y.idempotencyScope
  {
    HistoryInv(n, events);
    hide Act;
    var m := Played(n, events);
    var i :| PledgedAt(m.state, m.calls[a].op, i);
    EarlierAttempt(m.state, m.calls[b].op, i);
  }

  /** An intent that was claimed without a deadline is submitted at most once. */
  lemma NoDeadlineOneCall(n: Net, events: seq<Event>, a: nat, b: nat)
    requires Start(n)
    requires var m := Played(n, events); a < |m.calls| && b < |m.calls| && m.calls[a].op.operationId == m.calls[b].op.operationId
    requires Played(n, events).calls[a].op.retryUntil.None?
    ensures a == b
  {
    HistoryInv(n, events);
    CallsAreFrozen(n, events, a, b);
    hide Act;
    var m := Played(n, events);
    var i :| PledgedAt(m.state, m.calls[a].op, i);
    EarlierAttempt(m.state, m.calls[b].op, i);
    assert !Apart(m.calls[a].op, m.calls[b].op);
  }
}
