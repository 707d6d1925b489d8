/** Sound histories: what every reachable state keeps about its facts and operation records, and
    how one record may develop. */
module History {
  import opened Wrappers
  import opened Records
  import opened StateEngine
  import opened Rules
  import opened Resolution
  import opened Effects
  import opened System

  // ---- soundness ----

  ghost predicate AttemptsSound(r: OperationRecord) {
    var pending := r.pendingResponseAttempts;
    && 0 <= r.submissionAttempts
    && (forall k :: 0 <= k < |pending| ==> 0 < pending[k] <= r.submissionAttempts)
    && (forall j, k :: 0 <= j < k < |pending| ==> pending[j] != pending[k])
    && (r.state.Reserved? ==> r.submissionAttempts == 0)
  }

  predicate MovesMoney(r: OperationRecord) {
    r.operationType.Charge? || r.operationType.StartRefund?
  }

  /** Whatever is reserved is positive, and what was settled lies within the reservation. */
  ghost predicate AmountsSound(f: PaymentFacts, r: OperationRecord) {
    && 0.0 <= r.startingCaptured <= f.capturedFunds
    && 0.0 <= r.startingRefunded <= f.refundedFunds
    && (r.resolvedAmount.Some? ==> 0.0 < r.resolvedAmount.value)
    && (r.settledAmount.Some? ==>
          && r.state.Succeeded?
          && r.resolvedAmount.Some?
          && 0.0 < r.settledAmount.value <= r.resolvedAmount.value)
    && (MovesMoney(r) ==> r.resolvedAmount.Some? && (r.state.Succeeded? ==> r.settledAmount.Some?))
    && (r.operationType.Charge? ==> r.startingCaptured + r.resolvedAmount.value <= f.amountRequired)
    && (r.operationType.StartRefund? ==> r.startingRefunded + r.resolvedAmount.value <= r.startingCaptured)
  }

  ghost predicate RecordSound(f: PaymentFacts, r: OperationRecord) {
    && r.paymentId == f.paymentId
    && r.backend == f.backend
    && AttemptsSound(r)
    && AmountsSound(f, r)
  }

  ghost predicate DistinctIds(operations: seq<OperationRecord>) {
    forall i, j :: 0 <= i < j < |operations| ==> operations[i].operationId != operations[j].operationId
  }

  ghost predicate Ordered(operations: seq<OperationRecord>) {
    forall i, j :: 0 <= i < j < |operations| ==> operations[i].reservationSequence < operations[j].reservationSequence
  }

  ghost predicate TargetsRetained(operations: seq<OperationRecord>) {
    forall j :: 0 <= j < |operations| && operations[j].operationType.CancelRefund? ==>
      exists i :: 0 <= i < j && operations[j].Cancels(operations[i])
  }

  /** Nothing but a cancellation of the holder is ever reserved after an operation that holds. */
  ghost predicate HolderOrder(operations: seq<OperationRecord>) {
    forall i, j :: 0 <= i < j < |operations| && operations[i].Holds() ==> operations[j].Cancels(operations[i])
  }

  ghost predicate Sound(s: State) {
    && FactsBounded(s.facts)
    && (forall i :: 0 <= i < |s.operations| ==> RecordSound(s.facts, s.operations[i]))
    && DistinctIds(s.operations)
    && Ordered(s.operations)
    && TargetsRetained(s.operations)
    && HolderOrder(s.operations)
  }

  lemma SoundBounded(s: State)
    requires Sound(s)
    ensures FactsBounded(s.facts)
  {
  }

  lemma CapturedWhenRefunding(s: State, i: nat)
    requires Sound(s) && i < |s.operations| && s.operations[i].operationType.StartRefund?
    ensures 0.0 < s.facts.capturedFunds
  {
    assert RecordSound(s.facts, s.operations[i]);
  }

  /** Where the plan of an outcome ends up in the committed history. */
  lemma FindsItself(s: State, i: nat)
    requires Sound(s) && i < |s.operations|
    ensures IndexOf(s.operations, s.operations[i].operationId) == Some(i)
  {
  }

  // ---- development of one record ----

  /** Terminal and pending states are never taken back. */
  ghost predicate StateForward(a: OperationRecord, b: OperationRecord) {
    && (b.state.Reserved? ==> a.state.Reserved?)
    && (a.state.ProviderPending? ==> b.state.ProviderPending? || b.state.Terminal())
    && (a.state.Rejected? ==> b.state.Terminal())
    && (a.state.Succeeded? ==>
          && b.state.Succeeded?
          && (if a.settledAmount.Some? then b.settledAmount.Some? && a.settledAmount.value <= b.settledAmount.value
              else b.settledAmount.None?))
  }

  /** Submissions only grow, and the first claim freezes their time, window and scope. */
  ghost predicate SubmissionForward(a: OperationRecord, b: OperationRecord) {
    && a.submissionAttempts <= b.submissionAttempts
    && (a.submissionAttempts > 0 ==>
          && b.submittedAt == a.submittedAt
          && b.retryUntil == a.retryUntil
          && b.idempotencyScope == a.idempotencyScope)
    && (!a.IsActive() ==> b.submissionAttempts == a.submissionAttempts)
    && (a.submissionAttempts > 0 && a.retryUntil.None? ==> b.submissionAttempts == a.submissionAttempts)
    && (forall k :: k in b.pendingResponseAttempts ==>
          k in a.pendingResponseAttempts || a.submissionAttempts < k)
  }

  ghost predicate EvidenceForward(a: OperationRecord, b: OperationRecord) {
    && a.conflictingOutcomes <= b.conflictingOutcomes
    && a.recoveryEvidence <= b.recoveryEvidence
    && a.resolutions <= b.resolutions
    && (a.correlation.Some? ==> b.correlation == a.correlation)
  }

  ghost predicate Forward(a: OperationRecord, b: OperationRecord) {
    && SameIntent(a, b)
    && StateForward(a, b)
    && SubmissionForward(a, b)
    && EvidenceForward(a, b)
    && (!a.Holds() ==> !b.Holds())
  }

  lemma ForwardTransitive(a: OperationRecord, b: OperationRecord, c: OperationRecord)
    requires Forward(a, b) && Forward(b, c)
    ensures Forward(a, c)
  {
  }

  /** Money is never driven backwards, and disputes are never dropped. */
  ghost predicate FactsForward(f: PaymentFacts, g: PaymentFacts) {
    && SameIdentity(f, g)
    && FactsBounded(g)
    && f.capturedFunds <= g.capturedFunds
    && f.refundedFunds <= g.refundedFunds
    && f.observationConflicts <= g.observationConflicts
  }

  ghost predicate Develops(s: State, t: State) {
    && FactsForward(s.facts, t.facts)
    && |s.operations| <= |t.operations|
    && (forall i :: 0 <= i < |s.operations| ==> Forward(s.operations[i], t.operations[i]))
    && s.replay <= t.replay
  }

  lemma DevelopsTransitive(s: State, t: State, u: State)
    requires Develops(s, t) && Develops(t, u)
    ensures Develops(s, u)
  {
    forall i | 0 <= i < |s.operations|
      ensures Forward(s.operations[i], u.operations[i])
    {
      assert Forward(t.operations[i], u.operations[i]);
      ForwardTransitive(s.operations[i], t.operations[i], u.operations[i]);
    }
  }

  // ---- finding and replacing records ----

  lemma ReplacedAt(operations: seq<OperationRecord>, a: OperationRecord, related: seq<OperationRecord>, n: nat)
    requires n < |operations| && |related| <= 1
    ensures Replaced(operations, [a] + related)[n]
         == if related != [] && related[0].operationId == operations[n].operationId then related[0]
            else if a.operationId == operations[n].operationId then a
            else operations[n]
  {
    var changes := [a] + related;
    assert Replacement([a], operations[n]) == if a.operationId == operations[n].operationId then a else operations[n];
    if related != [] {
      assert changes[..1] == [a];
    } else {
      assert changes == [a];
    }
  }

  predicate IsRefund(r: OperationRecord, paymentId: string, id: Option<string>) {
    Some(r.operationId) == id && r.operationType.StartRefund? && r.paymentId == paymentId
  }

  lemma {:induction false} FindRefundFinds(operations: seq<OperationRecord>, paymentId: string,
                                           id: Option<string>) returns (k: int)
    ensures var found := FindRefund(operations, paymentId, id);
      if found.Some? then 0 <= k < |operations| && operations[k] == found.value && IsRefund(found.value, paymentId, id)
      else forall i :: 0 <= i < |operations| ==> !IsRefund(operations[i], paymentId, id)
  {
    if operations == [] {
      k := -1;
    } else if IsRefund(operations[0], paymentId, id) {
      k := 0;
    } else {
      k := FindRefundFinds(operations[1..], paymentId, id);
      k := k + 1;
      assert forall i :: 0 < i < |operations| ==> operations[i] == operations[1..][i - 1];
    }
  }

  lemma {:induction false} CandidatesFound(f: PaymentFacts, c: Correlated, o: Outcome, operations: seq<OperationRecord>)
    ensures forall r :: r in Candidates(f, c, o, operations) ==> r in operations && Candidate(f, c, o, r)
  {
    if operations == [] {
    } else {
      CandidatesFound(f, c, o, operations[1..]);
    }
  }

  lemma {:induction false} LastSequenceIsGreatest(operations: seq<OperationRecord>)
    ensures forall r :: r in operations ==> r.reservationSequence <= LastSequence(operations)
  {
    if operations == [] {
    } else {
      LastSequenceIsGreatest(operations[1..]);
      assert forall r :: r in operations ==> r == operations[0] || r in operations[1..];
    }
  }

  lemma {:induction false} CancellableFound(operations: seq<OperationRecord>, target: Option<string>) returns (k: nat)
    requires CancellableTarget(operations, target).Some?
    ensures k < |operations| && operations[k] == CancellableTarget(operations, target).value
    ensures Some(operations[k].operationId) == target && operations[k].operationType.StartRefund?
    ensures operations[k].state.ProviderPending? && operations[k].correlation.Some?
  {
    if Some(operations[0].operationId) == target && operations[0].operationType.StartRefund?
       && operations[0].state.ProviderPending? && operations[0].correlation.Some? {
      k := 0;
    } else {
      k := CancellableFound(operations[1..], target);
      k := k + 1;
    }
  }

  lemma {:induction false} WithoutKeeps(attempts: seq<int>, attempt: int)
    ensures forall k :: k in Without(attempts, attempt) <==> k in attempts && k != attempt
    ensures (forall j, k :: 0 <= j < k < |attempts| ==> attempts[j] != attempts[k]) ==>
      forall j, k :: 0 <= j < k < |Without(attempts, attempt)| ==> Without(attempts, attempt)[j] != Without(attempts, attempt)[k]
  {
    if attempts == [] {
    } else {
      var rest := Without(attempts[1..], attempt);
      WithoutKeeps(attempts[1..], attempt);
      if forall j, k :: 0 <= j < k < |attempts| ==> attempts[j] != attempts[k] {
        forall k | 0 <= k < |rest|
          ensures rest[k] != attempts[0]
        {
          var x := rest[k];
          assert x in Without(attempts[1..], attempt);
          assert x in attempts[1..];
        }
      }
    }
  }
}
