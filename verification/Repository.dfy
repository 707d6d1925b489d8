/** The in-memory durable repository: dictionaries updated in place, one atomic call at a time. Each
    call is proved to be exactly one step of the payment it addresses, and to touch no other. */
module Repository {
  import opened Wrappers
  import opened Records
  import opened Rules
  import opened Resolution
  import opened System
  import opened History
  import opened Decisions

  /** The payments after one call about one of them: a step, or nothing when it is refused. */
  ghost function Called(payments: map<string, State>, id: string, c: Command): map<string, State> {
    if id in payments then payments[id := After(payments[id], c)] else payments
  }

  ghost predicate Accepts(payments: map<string, State>, id: string, c: Command) {
    id in payments && Step(payments[id], c).Ok?
  }

  /** The error a refused call reports. */
  ghost function Refusal(payments: map<string, State>, id: string, c: Command, missing: Error): Error {
    if id !in payments then missing
    else match Step(payments[id], c) case Err(e) => e case Ok(_) => missing
  }

  /** Every payment with a sound history keeps one, and no payment is lost. */
  ghost predicate KeepsSound(before: map<string, State>, after: map<string, State>) {
    && before.Keys == after.Keys
    && forall id :: id in before && Sound(before[id]) ==> Sound(after[id])
  }

  /** A step of one payment keeps every history sound, and only develops the payment it addresses. */
  lemma CallKeepsSound(payments: map<string, State>, id: string, c: Command)
    ensures KeepsSound(payments, Called(payments, id, c))
    ensures id in payments && Sound(payments[id]) ==> Develops(payments[id], Called(payments, id, c)[id])
  {
    hide Sound, After, Develops;
    if id in payments && Sound(payments[id]) {
      AfterDevelops(payments[id], c);
    }
  }

  /** A call that took its step. */
  lemma Stepped(before: map<string, State>, id: string, c: Command, after: map<string, State>, next: State)
    requires id in before && Step(before[id], c) == Ok(next) && after == before[id := next]
    ensures KeepsSound(before, after) && after == Called(before, id, c) && Accepts(before, id, c)
  {
    hide Sound, Step;
    CallKeepsSound(before, id, c);
  }

  /** A call that was refused. */
  lemma Refused(before: map<string, State>, id: string, c: Command, error: Error, missing: Error)
    requires if id in before then Step(before[id], c) == Err(error) else error == missing
    ensures KeepsSound(before, before) && before == Called(before, id, c) && !Accepts(before, id, c) && error == Refusal(before, id, c, missing)
  {
    hide Sound, Step;
  }

  /** The dictionary of changed records that a commit builds: later changes win. */
  function Latest(changes: seq<OperationRecord>): map<string, OperationRecord> {
    if changes == [] then map[]
    else Latest(changes[..|changes| - 1])[changes[|changes| - 1].operationId := changes[|changes| - 1]]
  }

  lemma {:induction false} LatestReplaces(changes: seq<OperationRecord>, r: OperationRecord)
    ensures Replacement(changes, r) == if r.operationId in Latest(changes) then Latest(changes)[r.operationId] else r
  {
    if changes == [] {
    } else {
      LatestReplaces(changes[..|changes| - 1], r);
    }
  }

  /** Replace every record that has a change, in one pass over the history. */
  method ReplaceAll(operations: seq<OperationRecord>, changes: seq<OperationRecord>) returns (r: seq<OperationRecord>)
    ensures r == Replaced(operations, changes)
  {
    var replacements: map<string, OperationRecord> := map[];
    for i := 0 to |changes|
      invariant replacements == Latest(changes[..i])
    {
      replacements := replacements[changes[i].operationId := changes[i]];
      assert changes[..i + 1][..i] == changes[..i];
    }
    assert changes[..|changes|] == changes;
    r := [];
    for i := 0 to |operations|
      invariant |r| == i
      invariant forall k :: 0 <= k < i ==> r[k] == Replacement(changes, operations[k])
    {
      LatestReplaces(changes, operations[i]);
      var id := operations[i].operationId;
      r := r + [if id in replacements then replacements[id] else operations[i]];
    }
  }

  method OperationIndex(operations: seq<OperationRecord>, operationId: string) returns (r: Result<nat, Error>)
    ensures r == (match IndexOf(operations, operationId) case Some(i) => Ok(i) case None => Err(OperationConflict))
  {
    for i := 0 to |operations|
      invariant forall k :: 0 <= k < i ==> operations[k].operationId != operationId
    {
      if operations[i].operationId == operationId {
        return Ok(i);
      }
    }
    return Err(OperationConflict);
  }

  lemma SubmissionNamesIt(f: PaymentFacts, op: OperationRecord, attempt: int, now: Time, until: Option<Time>,
                          scope: Option<string>)
    requires PlanSubmission(f, op, attempt, now, until, scope).Ok?
    ensures PlanSubmission(f, op, attempt, now, until, scope).value.operation.operationId == op.operationId
  {
  }

  lemma ReservationNamesIt(f: PaymentFacts, operations: seq<OperationRecord>, intent: Intent)
    requires PlanReservation(f, operations, intent).Ok?
    ensures var plan := PlanReservation(f, operations, intent).value;
      && plan.operation.operationId == intent.operationId
      && (!plan.created ==> plan.operation in operations)
  {
  }

  lemma StepOf(s: State, c: Command)
    ensures c.Observe? ==> Step(s, c) == StepObserve(s, c.update)
    ensures c.Reserve? ==> Step(s, c) == StepReserve(s, c.intent)
    ensures c.Claim? ==> Step(s, c) == StepClaim(s, c.claimedId, c.expectedAttempt, c.now, c.retryUntil, c.scope)
    ensures c.RecordOutcome? ==> Step(s, c) == StepOutcome(s, c.recordedId, c.outcome, c.responseAttempt)
    ensures c.RecordFailure? ==> Step(s, c) == StepFailure(s, c.failedId, c.evidence)
    ensures c.Resolve? ==> Step(s, c) == StepResolve(s, c.resolvedId, c.decision, c.expectedOperation, c.expectedFacts)
  {
    hide StepObserve, StepReserve, StepClaim, StepOutcome, StepFailure, StepResolve;
  }

  /** A dictionary's keys, each once. */
  ghost predicate Lists(order: seq<string>, keys: set<string>) {
    && (forall i, j :: 0 <= i < j < |order| ==> order[i] != order[j])
    && (forall id :: id in order <==> id in keys)
  }

  /** A key takes its place when it is first inserted and keeps it afterwards. */
  function Inserted(order: seq<string>, id: string): seq<string> {
    if id in order then order else order + [id]
  }

  lemma NothingListed()
    ensures Lists([], {})
  {
  }

  lemma InsertedLists(order: seq<string>, keys: set<string>, id: string)
    requires Lists(order, keys)
    ensures Lists(Inserted(order, id), keys + {id})
    ensures id in keys ==> Inserted(order, id) == order
  {
  }

  /** The last of the entries that share an identity. */
  ghost predicate LastOf(entries: seq<PaymentFacts>, k: int) {
    && 0 <= k < |entries|
    && forall j :: k < j < |entries| ==> entries[j].paymentId != entries[k].paymentId
  }

  /** The dictionary of entries by identity: later entries win. */
  function Keyed(entries: seq<PaymentFacts>): map<string, PaymentFacts> {
    if entries == [] then map[]
    else Keyed(entries[..|entries| - 1])[entries[|entries| - 1].paymentId := entries[|entries| - 1]]
  }

  lemma {:induction false} KeyedKnows(entries: seq<PaymentFacts>, id: string)
    ensures id in Keyed(entries) <==> exists k :: 0 <= k < |entries| && entries[k].paymentId == id
  {
    if entries != [] {
      var front := entries[..|entries| - 1];
      KeyedKnows(front, id);
      assert entries == front + [entries[|entries| - 1]];
      if k :| 0 <= k < |front| && front[k].paymentId == id {
        assert entries[k].paymentId == id;
      }
    }
  }

  lemma {:induction false} KeyedLast(entries: seq<PaymentFacts>, k: int)
    requires LastOf(entries, k)
    ensures entries[k].paymentId in Keyed(entries) && Keyed(entries)[entries[k].paymentId] == entries[k]
  {
    var n := |entries| - 1;
    if k < n {
      assert entries[n].paymentId != entries[k].paymentId;
      KeyedLast(entries[..n], k);
    }
  }

  /** The unresolved records of one history, in its order. */
  function Unresolved(records: seq<OperationRecord>): seq<OperationRecord> {
    if records == [] then []
    else
      var last := records[|records| - 1];
      Unresolved(records[..|records| - 1]) + (if last.Unresolved() then [last] else [])
  }

  /** The unresolved records of many payments, history by history. */
  function UnresolvedIn(order: seq<string>, operations: map<string, seq<OperationRecord>>): seq<OperationRecord>
    requires forall id :: id in order ==> id in operations
  {
    if order == [] then []
    else UnresolvedIn(order[..|order| - 1], operations) + Unresolved(operations[order[|order| - 1]])
  }

  function FlaggedIn(order: seq<string>, facts: map<string, PaymentFacts>): seq<PaymentFacts>
    requires forall id :: id in order ==> id in facts
  {
    if order == [] then []
    else
      var last := facts[order[|order| - 1]];
      FlaggedIn(order[..|order| - 1], facts) + (if last.reconciliationRequired then [last] else [])
  }

  /** Each record is listed exactly as often as the history holds it, or not at all. */
  lemma {:induction false} UnresolvedCounts(records: seq<OperationRecord>, x: OperationRecord)
    ensures multiset(Unresolved(records))[x] == if x.Unresolved() then multiset(records)[x] else 0
  {
    if records != [] {
      var front, last := records[..|records| - 1], records[|records| - 1];
      UnresolvedCounts(front, x);
      assert records == front + [last];
      assert multiset(records) == multiset(front) + multiset{last};
      hide OperationRecord.Unresolved;
    }
  }

  lemma {:induction false} UnresolvedLists(order: seq<string>, operations: map<string, seq<OperationRecord>>,
                                           x: OperationRecord)
    requires forall id :: id in order ==> id in operations
    ensures x in UnresolvedIn(order, operations) <==> x.Unresolved() && exists id :: id in order && x in operations[id]
  {
    if order != [] {
      var id := order[|order| - 1];
      UnresolvedLists(order[..|order| - 1], operations, x);
      UnresolvedCounts(operations[id], x);
      assert multiset(operations[id])[x] > 0 <==> x in operations[id];
      assert x in Unresolved(operations[id]) <==> multiset(Unresolved(operations[id]))[x] > 0;
      assert order == order[..|order| - 1] + [id];
    }
  }

  lemma {:induction false} FlaggedLists(order: seq<string>, facts: map<string, PaymentFacts>, x: PaymentFacts)
    requires forall id :: id in order ==> id in facts
    ensures x in FlaggedIn(order, facts) <==> x.reconciliationRequired && exists id :: id in order && facts[id] == x
  {
    if order != [] {
      FlaggedLists(order[..|order| - 1], facts, x);
      assert order == order[..|order| - 1] + [order[|order| - 1]];
    }
  }

  class InMemoryDurableRepository {
    var facts: map<string, PaymentFacts>
    var operations: map<string, seq<OperationRecord>>
    var replay: map<string, seq<ReplayRecord>>

    /** The keys of the dictionaries in the order they were first inserted. */
    var factOrder: seq<string>
    var operationOrder: seq<string>

    function OperationsOf(id: string): seq<OperationRecord>
      reads this
    {
      if id in operations then operations[id] else []
    }

    function ReplayOf(id: string): seq<ReplayRecord>
      reads this
    {
      if id in replay then replay[id] else []
    }

    /** Every payment the repository knows, as the transition system sees it. */
    ghost function Payments(): map<string, State>
      reads this
    {
      map id | id in facts :: State(facts[id], OperationsOf(id), ReplayOf(id))
    }

    /** The dictionaries list their keys, and operations belong to known payments. */
    ghost predicate Valid()
      reads this
    {
      && Lists(factOrder, facts.Keys)
      && Lists(operationOrder, operations.Keys)
      && (forall id :: id in operations && operations[id] != [] ==> id in facts)
    }

    /** Of entries with the same identity the last one stays. */
    constructor (entries: seq<PaymentFacts>)
      ensures Valid() && operationOrder == []
      ensures forall id :: id in Payments() <==> exists k :: 0 <= k < |entries| && entries[k].paymentId == id
      ensures forall k :: LastOf(entries, k) ==> Payments()[entries[k].paymentId] == State(entries[k], [], [])
      ensures forall k :: LastOf(entries, k) && FactsBounded(entries[k]) ==>
        Initial(Payments()[entries[k].paymentId]) && Sound(Payments()[entries[k].paymentId])
    {
      hide Sound, Lists, Inserted, FactsBounded;
      facts := map[];
      operations := map[];
      replay := map[];
      factOrder := [];
      operationOrder := [];
      new;
      NothingListed();
      assert facts.Keys == {};
      for i := 0 to |entries|
        invariant operations == map[] && replay == map[] && operationOrder == []
        invariant facts == Keyed(entries[..i]) && Lists(factOrder, facts.Keys)
      {
        InsertedLists(factOrder, facts.Keys, entries[i].paymentId);
        factOrder := Inserted(factOrder, entries[i].paymentId);
        assert entries[..i + 1][..i] == entries[..i];
        facts := facts[entries[i].paymentId := entries[i]];
        assert facts.Keys == Keyed(entries[..i]).Keys + {entries[i].paymentId};
      }
      assert entries[..|entries|] == entries;
      forall id ensures id in facts <==> exists k :: 0 <= k < |entries| && entries[k].paymentId == id {
        KeyedKnows(entries, id);
      }
      forall k | LastOf(entries, k)
        ensures entries[k].paymentId in facts && Payments()[entries[k].paymentId] == State(entries[k], [], [])
        ensures FactsBounded(entries[k]) ==> Sound(Payments()[entries[k].paymentId])
      {
        KeyedLast(entries, k);
        if FactsBounded(entries[k]) {
          InitialSound(Payments()[entries[k].paymentId]);
        }
      }
    }

    /** A payment without operations reads as one with an empty list of them. */
    method EnsureOperations(id: string)
      requires Valid()
      modifies this`operations, this`operationOrder
      ensures Valid() && Payments() == old(Payments()) && id in operations
      ensures operationOrder == Inserted(old(operationOrder), id)
    {
      InsertedLists(operationOrder, operations.Keys, id);
      if id !in operations {
        operations := operations[id := []];
        operationOrder := operationOrder + [id];
      }
      assert Payments() == old(Payments());
    }

    /** Replace the history of a payment that has one. */
    method Put(id: string, records: seq<OperationRecord>)
      requires Valid() && id in facts && id in operations
      modifies this`operations
      ensures Valid() && id in operations
      ensures Payments() == old(Payments())[id := old(Payments())[id].(operations := records)]
    {
      hide Lists;
      operations := operations[id := records];
      assert operations.Keys == old(operations.Keys);
    }

    method PutFacts(id: string, next: PaymentFacts)
      requires Valid() && id in facts
      modifies this`facts
      ensures Valid() && id in facts
      ensures Payments() == old(Payments())[id := old(Payments())[id].(facts := next)]
    {
      hide Lists;
      facts := facts[id := next];
      assert facts.Keys == old(facts.Keys);
    }

    method Commit(id: string, next: PaymentFacts, changes: seq<OperationRecord>)
      requires Valid() && id in facts
      modifies this`facts, this`operations, this`operationOrder
      ensures Valid() && id in facts
      ensures Payments() == old(Payments())[id := Committed(old(Payments())[id], next, changes)]
      ensures operationOrder == Inserted(old(operationOrder), id)
    {
      hide Replaced, Lists;
      EnsureOperations(id);
      var replaced := ReplaceAll(operations[id], changes);
      Put(id, replaced);
      PutFacts(id, next);
    }

    method Log(id: string, record: Option<ReplayRecord>)
      requires Valid() && id in facts
      modifies this`replay
      ensures Valid()
      ensures Payments() == old(Payments())[id := old(Payments())[id].(
                replay := if record.Some? then old(Payments())[id].replay + [record.value] else old(Payments())[id].replay)]
    {
      if record.Some? {
        replay := replay[id := ReplayOf(id) + [record.value]];
      }
    }

    method ApplyObservation(id: string, update: Option<Update>) returns (r: Result<ObservationPlan, Error>)
      requires Valid()
      modifies this
      ensures Valid() && KeepsSound(old(Payments()), Payments())
      ensures Payments() == Called(old(Payments()), id, Observe(update))
      ensures r.Ok? <==> Accepts(old(Payments()), id, Observe(update))
      ensures r.Err? ==> r.error == Refusal(old(Payments()), id, Observe(update), UnknownPayment)
      ensures r.Ok? ==>
        var s := old(Payments())[id];
        PlanObservation(s.facts, s.replay, update, s.operations) == r && Payments()[id].facts == r.value.facts
      ensures factOrder == old(factOrder)
      ensures operationOrder == if r.Ok? then Inserted(old(operationOrder), id) else old(operationOrder)
    {
      hide Sound, Step, PlanObservation, Replaced, Called, Accepts, Refusal, KeepsSound, Lists, Inserted;
      ghost var before := Payments();
      if id !in facts {
        Refused(before, id, Observe(update), UnknownPayment, UnknownPayment);
        return Err(UnknownPayment);
      }
      if id !in replay {
        replay := replay[id := []];
      }
      assert Payments() == before;
      StepOf(before[id], Observe(update));
      r := PlanObservation(facts[id], replay[id], update, OperationsOf(id));
      if r.Err? {
        Refused(before, id, Observe(update), r.error, UnknownPayment);
        return;
      }
      Commit(id, r.value.facts, r.value.operations);
      Log(id, r.value.replayRecord);
      Stepped(before, id, Observe(update), Payments(), Payments()[id]);
    }

    method ReserveOperation(id: string, intent: Intent) returns (r: Result<OperationRecord, Error>)
      requires Valid()
      modifies this
      ensures Valid() && KeepsSound(old(Payments()), Payments())
      ensures Payments() == Called(old(Payments()), id, Reserve(intent))
      ensures r.Ok? <==> Accepts(old(Payments()), id, Reserve(intent))
      ensures r.Err? ==> r.error == Refusal(old(Payments()), id, Reserve(intent), UnknownPayment)
      ensures r.Ok? ==> r.value in Payments()[id].operations && r.value.operationId == intent.operationId
      ensures factOrder == old(factOrder) && operationOrder == Inserted(old(operationOrder), id)
    {
      hide Sound, Step, PlanReservation, Called, Accepts, Refusal, KeepsSound, Lists, Inserted;
      ghost var before := Payments();
      EnsureOperations(id);
      if id !in facts {
        Refused(before, id, Reserve(intent), UnknownPayment, UnknownPayment);
        return Err(UnknownPayment);
      }
      StepOf(before[id], Reserve(intent));
      var plan := PlanReservation(facts[id], operations[id], intent);
      if plan.Err? {
        Refused(before, id, Reserve(intent), plan.error, UnknownPayment);
        return Err(plan.error);
      }
      ReservationNamesIt(facts[id], operations[id], intent);
      if plan.value.created {
        Put(id, operations[id] + [plan.value.operation]);
      }
      PutFacts(id, plan.value.facts);
      Stepped(before, id, Reserve(intent), Payments(), Payments()[id]);
      return Ok(plan.value.operation);
    }

    method ClaimSubmission(id: string, operationId: string, expectedAttempt: int, now: Time, retryUntil: Option<Time>,
                           scope: Option<string>) returns (r: Result<SubmissionPlan, Error>)
      requires Valid()
      modifies this`operations
      ensures Valid() && KeepsSound(old(Payments()), Payments())
      ensures Payments() == Called(old(Payments()), id, Claim(operationId, expectedAttempt, now, retryUntil, scope))
      ensures r.Ok? <==> Accepts(old(Payments()), id, Claim(operationId, expectedAttempt, now, retryUntil, scope))
      ensures r.Err? ==> r.error == Refusal(old(Payments()), id, Claim(operationId, expectedAttempt, now, retryUntil, scope), OperationConflict)
      ensures r.Ok? ==> r.value.operation in Payments()[id].operations && r.value.operation.operationId == operationId
      ensures r.Ok? ==>
        var s := old(Payments())[id];
        var index := IndexOf(s.operations, operationId);
        index.Some? && r == PlanSubmission(s.facts, s.operations[index.value], expectedAttempt, now, retryUntil, scope)
    {
      hide Sound, Step, PlanSubmission, Replaced, Called, Accepts, Refusal, KeepsSound, Lists, Inserted;
      ghost var before := Payments();
      ghost var c := Claim(operationId, expectedAttempt, now, retryUntil, scope);
      var current := OperationsOf(id);
      var index := OperationIndex(current, operationId);
      if id in before {
        StepOf(before[id], c);
      }
      if index.Err? {
        Refused(before, id, c, index.error, OperationConflict);
        return Err(index.error);
      }
      assert id in facts;
      r := PlanSubmission(facts[id], current[index.value], expectedAttempt, now, retryUntil, scope);
      if r.Err? {
        Refused(before, id, c, r.error, OperationConflict);
        return;
      }
      Put(id, current[index.value := r.value.operation]);
      Stepped(before, id, c, Payments(), Payments()[id]);
      SubmissionNamesIt(facts[id], current[index.value], expectedAttempt, now, retryUntil, scope);
      assert operations[id][index.value] == r.value.operation;
    }

    method RecordOperationOutcome(id: string, operationId: string, o: Outcome, responseAttempt: Option<int>)
      returns (r: Result<OutcomePlan, Error>)
      requires Valid()
      modifies this
      ensures Valid() && KeepsSound(old(Payments()), Payments())
      ensures Payments() == Called(old(Payments()), id, RecordOutcome(operationId, o, responseAttempt))
      ensures r.Ok? <==> Accepts(old(Payments()), id, RecordOutcome(operationId, o, responseAttempt))
      ensures r.Err? ==> r.error == Refusal(old(Payments()), id, RecordOutcome(operationId, o, responseAttempt), OperationConflict)
      ensures r.Ok? ==> Payments()[id].facts == r.value.facts
      ensures factOrder == old(factOrder) && operationOrder == Inserted(old(operationOrder), id)
    {
      hide Sound, Step, PlanOutcome, Replaced, Called, Accepts, Refusal, KeepsSound, Lists, Inserted;
      ghost var before := Payments();
      ghost var c := RecordOutcome(operationId, o, responseAttempt);
      EnsureOperations(id);
      var current := OperationsOf(id);
      var index := OperationIndex(current, operationId);
      if id in before {
        StepOf(before[id], c);
      }
      if index.Err? {
        Refused(before, id, c, index.error, OperationConflict);
        return Err(index.error);
      }
      assert id in facts;
      r := PlanOutcome(facts[id], current[index.value], o, current, responseAttempt);
      if r.Err? {
        Refused(before, id, c, r.error, OperationConflict);
        return;
      }
      InsertedLists(operationOrder, operations.Keys, id);
      Commit(id, r.value.facts, [r.value.operation] + r.value.relatedOperations);
      Stepped(before, id, c, Payments(), Payments()[id]);
    }

    method RecordOperationFailure(id: string, operationId: string, evidence: RecoveryEvidence)
      returns (r: Result<OperationRecord, Error>)
      requires Valid()
      modifies this`operations
      ensures Valid() && KeepsSound(old(Payments()), Payments())
      ensures Payments() == Called(old(Payments()), id, RecordFailure(operationId, evidence))
      ensures r.Ok? <==> Accepts(old(Payments()), id, RecordFailure(operationId, evidence))
      ensures r.Err? ==> r.error == Refusal(old(Payments()), id, RecordFailure(operationId, evidence), OperationConflict)
      ensures r.Ok? ==> r.value in Payments()[id].operations && evidence in r.value.recoveryEvidence && r.value.reconciliationRequired
    {
      hide Sound, Step, StepObserve, Replaced, Called, Accepts, Refusal, KeepsSound, Lists, Inserted;
      ghost var before := Payments();
      ghost var c := RecordFailure(operationId, evidence);
      var current := OperationsOf(id);
      var index := OperationIndex(current, operationId);
      if id in before {
        StepOf(before[id], c);
      }
      if index.Err? {
        Refused(before, id, c, index.error, OperationConflict);
        return Err(index.error);
      }
      assert id in facts;
      var recorded := PlanFailure(current[index.value], evidence);
      Put(id, current[index.value := recorded]);
      Stepped(before, id, c, Payments(), Payments()[id]);
      assert operations[id][index.value] == recorded;
      return Ok(recorded);
    }

    method ResolveOperation(id: string, operationId: string, d: Decision, expectedOperation: OperationRecord,
                            expectedFacts: PaymentFacts) returns (r: Result<OutcomePlan, Error>)
      requires Valid()
      modifies this
      ensures Valid() && KeepsSound(old(Payments()), Payments())
      ensures Payments() == Called(old(Payments()), id, Resolve(operationId, d, expectedOperation, expectedFacts))
      ensures r.Ok? <==> Accepts(old(Payments()), id, Resolve(operationId, d, expectedOperation, expectedFacts))
      ensures r.Err? ==> r.error == Refusal(old(Payments()), id, Resolve(operationId, d, expectedOperation, expectedFacts), OperationConflict)
      ensures r.Ok? ==> Payments()[id].facts == r.value.facts
      ensures factOrder == old(factOrder) && operationOrder == old(operationOrder)
    {
      hide Sound, Step, PlanResolution, Replaced, Called, Accepts, Refusal, KeepsSound, Lists, Inserted;
      ghost var before := Payments();
      ghost var c := Resolve(operationId, d, expectedOperation, expectedFacts);
      var current := OperationsOf(id);
      var index := OperationIndex(current, operationId);
      if id in before {
        StepOf(before[id], c);
      }
      if index.Err? {
        Refused(before, id, c, index.error, OperationConflict);
        return Err(index.error);
      }
      assert id in facts;
      r := PlanResolution(facts[id], current[index.value], d, expectedFacts, expectedOperation, current);
      if r.Err? {
        Refused(before, id, c, r.error, OperationConflict);
        return;
      }
      InsertedLists(operationOrder, operations.Keys, id);
      Commit(id, r.value.facts, [r.value.operation] + r.value.relatedOperations);
      Stepped(before, id, c, Payments(), Payments()[id]);
    }

    // ---- reading and discovery ----

    method GetOperation(id: string, operationId: string) returns (r: Option<OperationRecord>)
      ensures r.Some? ==> r.value in OperationsOf(id) && r.value.operationId == operationId
      ensures r.None? ==> forall x :: x in OperationsOf(id) ==> x.operationId != operationId
    {
      var current := OperationsOf(id);
      for i := 0 to |current|
        invariant forall k :: 0 <= k < i ==> current[k].operationId != operationId
      {
        if current[i].operationId == operationId {
          return Some(current[i]);
        }
      }
      return None;
    }

    /** Discovery lists the operations that are active, flagged, or awaiting a response: payment by payment in the
        order their histories began, and within a payment in the order of its history. */
    method ListUnresolvedOperations() returns (r: seq<OperationRecord>)
      requires Valid()
      ensures r == UnresolvedIn(operationOrder, operations)
      ensures forall x :: x in r <==>
        && (x.state !in {Succeeded, Rejected} || x.reconciliationRequired || x.pendingResponseAttempts != [])
        && exists id :: id in operations && x in operations[id]
    {
      r := [];
      for k := 0 to |operationOrder|
        invariant r == UnresolvedIn(operationOrder[..k], operations)
      {
        var current := operations[operationOrder[k]];
        ghost var before := r;
        for i := 0 to |current|
          invariant r == before + Unresolved(current[..i])
        {
          assert current[..i + 1][..i] == current[..i];
          if current[i].Unresolved() {
            r := r + [current[i]];
          }
        }
        assert current[..|current|] == current;
        assert operationOrder[..k + 1][..k] == operationOrder[..k];
      }
      assert operationOrder[..|operationOrder|] == operationOrder;
      forall x ensures x in r <==> x.Unresolved() && exists id :: id in operations && x in operations[id] {
        UnresolvedLists(operationOrder, operations, x);
      }
    }

    /** Discovery lists the payments with a reconciliation requirement, in the order they became known. */
    method ListPaymentsRequiringReconciliation() returns (r: seq<PaymentFacts>)
      requires Valid()
      ensures r == FlaggedIn(factOrder, facts)
      ensures forall x :: x in r <==> x.reconciliationRequired && exists id :: id in facts && facts[id] == x
    {
      r := [];
      for k := 0 to |factOrder|
        invariant r == FlaggedIn(factOrder[..k], facts)
      {
        assert factOrder[..k + 1][..k] == factOrder[..k];
        if facts[factOrder[k]].reconciliationRequired {
          r := r + [facts[factOrder[k]]];
        }
      }
      assert factOrder[..|factOrder|] == factOrder;
      forall x ensures x in r <==> x.reconciliationRequired && exists id :: id in facts && facts[id] == x {
        FlaggedLists(factOrder, facts, x);
      }
    }
  }
}
