/** What an observation does, completely: exactly when it is accepted, which part of it is applied, what is retained
    as a dispute, what is logged, and what a correlated outcome settles. */
module Observations {
  import opened Wrappers
  import opened Records
  import opened StateEngine
  import opened Rules
  import opened Resolution
  import opened Effects
  import opened System
  import opened History
  import opened Steps
  import opened Decisions
  import opened Evidence
  import opened Lifecycle
  import opened Verdicts
  import opened Outcomes

  // ---- the observation, as its sender sees it ----

  /** A lock states its amount; a cancellation scope narrows a release of the authorization; an operation is named
      only together with its outcome, which is evidence. */
  predicate WellFormedObservation(u: Update) {
    && !(u.paymentEvent == Some(LockedEvent) && u.lockedAmount.None?)
    && (u.correlated.Some? ==>
          && u.correlated.value.cancellationScope in {None, Some(ReleaseLock)}
          && (u.correlated.value.cancellationScope.Some? ==> u.paymentEvent == Some(LockReleased))
          && (u.correlated.value.operationId.Some? ==> u.OutcomePart().Some?))
    && (u.OutcomePart().Some? ==>
          && u.OutcomePart().value.state !in {Reserved, Submitting}
          && (u.OutcomePart().value.settledAmount.Some? ==> u.OutcomePart().value.state == Succeeded))
  }

  /** Two observations say the same: everything but the event identity and the metadata, with absent texts read as
      empty, and a plain observation read as one without operation, outcome, scope and increments. */
  predicate SaySame(u: Update, v: Update) {
    && u.paymentEvent == v.paymentEvent && u.fraudEvent == v.fraudEvent
    && u.paidAmount == v.paidAmount && u.refundedAmount == v.refundedAmount && u.lockedAmount == v.lockedAmount
    && u.externalId.GetOr("") == v.externalId.GetOr("") && u.fraudMessage.GetOr("") == v.fraudMessage.GetOr("")
    && var a, b := u.correlated.GetOr(PLAIN), v.correlated.GetOr(PLAIN);
    && (a == PLAIN <==> b == PLAIN)
    && a.operationId.GetOr("") == b.operationId.GetOr("")
    && a.cancellationScope == b.cancellationScope && a.deltaOnly == b.deltaOnly
    && (a.outcome.Some? <==> b.outcome.Some?)
    && (a.outcome.Some? ==>
          && a.outcome.value.state == b.outcome.value.state
          && a.outcome.value.settledAmount == b.outcome.value.settledAmount
          && a.outcome.value.correlation.GetOr("") == b.outcome.value.correlation.GetOr("")
          && a.outcome.value.reconciliationRequired == b.outcome.value.reconciliationRequired
          && a.outcome.value.externalId.GetOr("") == b.outcome.value.externalId.GetOr(""))
  }

  const PLAIN := Correlated(None, None, None, false)

  /** The digest of an observation identifies what it says. */
  lemma ContentIsExact(u: Update, v: Update)
    ensures ContentOf(u) == ContentOf(v) <==> SaySame(u, v)
  {
  }

  /** The observation kept as a dispute, once for each reason. */
  function Disputing(f: PaymentFacts, u: Update, reason: ConflictReason): PaymentFacts {
    f.(reconciliationRequired := true,
       observationConflicts := Added(f.observationConflicts, ObservationConflict(u.providerEventId, ContentOf(u), reason)))
  }

  // ---- the part that is applied ----

  /** The event applied to the payment as a whole. Only a failure and a lock speak beside an outcome, which owns the
      lifecycle of its operation, and only a failure beside isolated increments. A cancellation never speaks without
      an outcome, unless it is scoped to the authorization. */
  function AppliedEvent(u: Update): Option<PaymentEvent> {
    var aggregate := !u.DeltaOnly() && u.OutcomePart().None?;
    match u.paymentEvent
    case None => None
    case Some(FailedEvent) => Some(FailedEvent)
    case Some(LockedEvent) => if u.DeltaOnly() then None else Some(LockedEvent)
    case Some(RefundCancelled) => None
    case Some(LockReleased) => if aggregate && u.ScopedRelease() then Some(LockReleased) else None
    case Some(e) => if aggregate then Some(e) else None
  }

  predicate Foreign(f: PaymentFacts, u: Update) {
    f.externalId.Some? && u.externalId.Some? && u.externalId != f.externalId
  }

  /** Isolated increments are never applied as totals, and a foreign payment handle never replaces the known one. */
  function AppliedPart(f: PaymentFacts, u: Update): Update {
    u.(paymentEvent := AppliedEvent(u),
       paidAmount := if u.DeltaOnly() then None else u.paidAmount,
       refundedAmount := if u.DeltaOnly() then None else u.refundedAmount,
       lockedAmount := if u.DeltaOnly() then None else u.lockedAmount,
       externalId := if Foreign(f, u) then None else u.externalId)
  }

  predicate Unowned(u: Update) {
    u.DeltaOnly() && u.OutcomePart().None?
  }

  predicate Ambiguous(u: Update) {
    && u.paymentEvent in {Some(LockReleased), Some(RefundCancelled)}
    && !u.ScopedRelease()
    && u.OutcomePart().None?
  }

  /** The facts with everything ambiguous about the observation disputed. */
  function Screening(f: PaymentFacts, u: Update): PaymentFacts {
    var a := if Unowned(u) then Disputing(f, u, UnresolvedDelta) else f;
    var b := if Ambiguous(u) then Disputing(a, u, AmbiguousCancellation) else a;
    if Foreign(f, u) then Disputing(b, u, ConflictingExternalId) else b
  }

  lemma ScreenedExactly(f: PaymentFacts, u: Update)
    ensures Screened(f, u) == (Screening(f, u), AppliedPart(f, u))
  {
    hide ContentOf;
  }

  lemma ScreeningKeepsMoney(f: PaymentFacts, u: Update)
    ensures var g := Screening(f, u);
      g == f.(reconciliationRequired := g.reconciliationRequired, observationConflicts := g.observationConflicts)
  {
    hide ContentOf;
  }

  /** The facts with the applied part of the observation. */
  function Evident(f: PaymentFacts, u: Update): PaymentFacts {
    Updated(Screening(f, u), AppliedPart(f, u))
  }

  predicate EvidentAllowed(f: PaymentFacts, u: Update) {
    UpdateAllowed(Screening(f, u), AppliedPart(f, u))
  }

  lemma AggregateExactly(f: PaymentFacts, u: Update)
    requires FactsBounded(f) && !ClaimsTheImpossible(f, u)
    ensures AggregateFacts(f, u) == if EvidentAllowed(f, u) then Ok(Evident(f, u)) else Err(InvalidTransition)
  {
    ScreenedExactly(f, u);
    ScreeningKeepsMoney(f, u);
    ImpossibleMeansClaimed(f, u);
    PartIsPossible(f, Screening(f, u), u);
    hide Screened, Screening, ApplyToFacts, Updated, UpdateAllowed, ClaimsTheImpossible, FinanciallyPossible;
    AppliedExactly(Screening(f, u), AppliedPart(f, u));
  }

  lemma PartIsPossible(f: PaymentFacts, g: PaymentFacts, u: Update)
    requires FactsBounded(f) && FinanciallyPossible(f, u) && SameMoney(f, g) && f.amountRequired == g.amountRequired
    ensures FactsBounded(g) && FinanciallyPossible(g, AppliedPart(f, u))
  {
  }

  // ---- the result ----

  /** Isolated increments claim exactly what the outcome confirms about its operation. */
  predicate IncrementsAgree(u: Update, op: OperationRecord, o: Outcome) {
    u.DeltaOnly() ==>
      && u.lockedAmount.None?
      && (u.paidAmount.Some? || u.refundedAmount.Some? ==> o.state == Succeeded)
      && (u.paidAmount.Some? ==> op.operationType == Charge && u.paidAmount == Amount(op, o))
      && (u.refundedAmount.Some? ==> op.operationType == StartRefund && u.refundedAmount == Amount(op, o))
  }

  /** An active refund owns the status. */
  ghost function Marked(f: PaymentFacts, operations: seq<OperationRecord>): PaymentFacts {
    if exists r :: r in operations && r.operationType == StartRefund && r.state !in {Succeeded, Rejected}
    then f.(status := RefundStarted)
    else f
  }

  ghost predicate NewAndPossible(s: State, u: Update) {
    NewEvent(s, u) && !ClaimsTheImpossible(s.facts, u)
  }

  /** The state whose totals the observation established, before its outcome. */
  function Between(s: State, u: Update): State {
    s.(facts := Evident(s.facts, u))
  }

  /** What an outcome correlated with the operation at `i` leaves. */
  ghost predicate CorrelatedAs(s: State, u: Update, i: int, t: State)
    requires 0 <= i < |s.operations| && u.OutcomePart().Some?
  {
    var op, o := s.operations[i], u.OutcomePart().value;
    if !IncrementsAgree(u, op, o) then
      t.operations == s.operations && t.facts == Marked(Disputing(Evident(s.facts, u), u, ConflictingDelta), s.operations)
    else
      var g := FactsAfter(Evident(s.facts, u), op, o, s.operations, AnyActiveRefund(t.operations));
      RecordedAs(Between(s, u), i, o, None, State(g, t.operations, s.replay)) && t.facts == Marked(g, t.operations)
  }

  /** The whole state after an observation. */
  ghost predicate ObservedAs(s: State, u: Update, t: State) {
    if !NewEvent(s, u) then
      t == if Repeats(s, u) then s else s.(facts := Disputing(s.facts, u, ConflictingIdentity))
    else if ClaimsTheImpossible(s.facts, u) then
      t == s.(facts := Disputing(s.facts, u, FinancialConstraints))
    else
      && t.replay == s.replay + Logged(s.facts, u)
      && if u.OutcomePart().None? then
           t.operations == s.operations && t.facts == Marked(Evident(s.facts, u), s.operations)
         else if !Unique(s, u) then
           && t.operations == s.operations
           && t.facts == Marked(Disputing(Evident(s.facts, u), u, UncorrelatedOutcome), s.operations)
         else forall i :: OnlyCorrelated(s, u, i) ==> CorrelatedAs(s, u, i, t)
  }

  /** The event was applied before, with the same content. */
  predicate Repeats(s: State, u: Update) {
    var record := ReplayFor(s.facts, u);
    record.Some? && KnownReplay(s.replay, record.value) == record
  }

  /** The record of an applied event: an observation without identity leaves none. */
  function Logged(f: PaymentFacts, u: Update): seq<ReplayRecord> {
    if u.providerEventId in {None, Some("")} then []
    else [ReplayRecord(f.paymentId, f.backend, u.providerEventId.value, ContentOf(u))]
  }

  ghost predicate ObservationAllowed(s: State, u: Update) {
    && WellFormedObservation(u)
    && (NewAndPossible(s, u) ==>
          && EvidentAllowed(s.facts, u)
          && forall i :: OnlyCorrelated(s, u, i) && IncrementsAgree(u, s.operations[i], u.OutcomePart().value) ==>
               WellFormed(s.operations[i], u.OutcomePart().value))
  }

  // ---- proofs ----

  lemma SameShape(u: Update)
    ensures ObservationValid(u) <==> WellFormedObservation(u)
  {
  }

  lemma SameIncrements(u: Update, op: OperationRecord, o: Outcome)
    ensures DeltaMatches(u, op, o) <==> IncrementsAgree(u, op, o)
  {
  }

  lemma SameMark(f: PaymentFacts, operations: seq<OperationRecord>)
    ensures MarkedRefund(f, operations) == Marked(f, operations)
  {
    if AnyActiveRefund(operations) {
      var i :| 0 <= i < |operations| && operations[i].ActiveRefund();
      assert operations[i] in operations;
    }
  }

  lemma SameDispute(f: PaymentFacts, u: Update, reason: ConflictReason)
    ensures RetainObservation(f, u, reason) == Disputing(f, u, reason)
  {
  }

  lemma BetweenSound(s: State, u: Update)
    requires Sound(s) && AggregateFacts(s.facts, u) == Ok(Evident(s.facts, u))
    ensures Sound(Between(s, u))
    ensures SameIdentity(s.facts, Evident(s.facts, u))
  {
    hide Sound, AggregateFacts, Evident;
    AggregateForwardSound(s, u);
    ForwardFactsSound(s, Evident(s.facts, u));
  }

  lemma ForwardFactsSound(s: State, g: PaymentFacts)
    requires Sound(s) && FactsForward(s.facts, g)
    ensures Sound(s.(facts := g)) && SameIdentity(s.facts, g)
  {
    forall i | 0 <= i < |s.operations|
      ensures RecordSound(g, s.operations[i])
    {
      StillSound(s.facts, g, s.operations[i]);
    }
  }

  lemma OnlyOne(s: State, u: Update, i: int, j: int)
    requires OnlyCorrelated(s, u, i) && OnlyCorrelated(s, u, j)
    ensures i == j
  {
    hide Correlates;
    assert Correlates(s, u, s.operations[i]);
  }

  /** The operation the planner finds is the one that correlates. */
  lemma FoundIsCorrelated(s: State, u: Update, i: int)
    requires u.OutcomePart().Some? && SameIdentity(s.facts, Screening(s.facts, u)) && OnlyCorrelated(s, u, i)
    ensures Candidates(Screening(s.facts, u), u.correlated.value, u.OutcomePart().value, s.operations) == [s.operations[i]]
  {
    hide Correlates, Candidate, Candidates, Screening;
    var f := Screening(s.facts, u);
    var c, o := u.correlated.value, u.OutcomePart().value;
    UniqueIsOneCandidate(s, u, f);
    var k := CandidateIndex(f, c, o, s.operations);
    CorrelatesIsCandidate(s, u, f, s.operations[k]);
  }

  lemma NothingFound(s: State, u: Update)
    requires u.OutcomePart().Some? && SameIdentity(s.facts, Screening(s.facts, u)) && !Unique(s, u)
    ensures |Candidates(Screening(s.facts, u), u.correlated.value, u.OutcomePart().value, s.operations)| != 1
  {
    hide Unique, Candidates, Screening;
    UniqueIsOneCandidate(s, u, Screening(s.facts, u));
  }

  lemma ScreeningIdentity(f: PaymentFacts, u: Update)
    ensures SameIdentity(f, Screening(f, u))
  {
    ScreeningKeepsMoney(f, u);
    hide Screening;
  }

  /** What new and possible evidence leaves, as records and facts. */
  ghost predicate NewAs(s: State, u: Update, plan: ObservationPlan) {
    var t := Committed(s, plan.facts, plan.operations);
    if u.OutcomePart().None? then
      t.operations == s.operations && t.facts == Marked(Evident(s.facts, u), s.operations)
    else if !Unique(s, u) then
      && t.operations == s.operations
      && t.facts == Marked(Disputing(Evident(s.facts, u), u, UncorrelatedOutcome), s.operations)
    else forall i :: OnlyCorrelated(s, u, i) ==> CorrelatedAs(s, u, i, t)
  }

  ghost predicate Receivable(s: State, u: Update) {
    && EvidentAllowed(s.facts, u)
    && forall i :: OnlyCorrelated(s, u, i) && IncrementsAgree(u, s.operations[i], u.OutcomePart().value) ==>
         WellFormed(s.operations[i], u.OutcomePart().value)
  }

  lemma NothingCorrelates(s: State, u: Update, i: int)
    requires u.OutcomePart().None?
    ensures !OnlyCorrelated(s, u, i)
  {
    if 0 <= i < |s.operations| {
      assert !Correlates(s, u, s.operations[i]);
    }
  }

  lemma NewAlone(s: State, u: Update, record: Option<ReplayRecord>)
    requires Sound(s) && AggregateFacts(s.facts, u) == Ok(Evident(s.facts, u)) && u.OutcomePart().None?
    ensures PlanNewEvidence(s.facts, u, record, s.operations)
         == Ok(ObservationPlan(Marked(Evident(s.facts, u), s.operations), record, true, []))
  {
    hide AggregateFacts, Evident, Sound, Screened, MarkedRefund, Marked;
    ReplacedNothing(s.operations);
    SameMark(Evident(s.facts, u), s.operations);
  }

  lemma NewUncorrelated(s: State, u: Update, record: Option<ReplayRecord>)
    requires Sound(s) && AggregateFacts(s.facts, u) == Ok(Evident(s.facts, u))
    requires u.OutcomePart().Some? && !Unique(s, u)
    ensures PlanNewEvidence(s.facts, u, record, s.operations)
         == Ok(ObservationPlan(Marked(Disputing(Evident(s.facts, u), u, UncorrelatedOutcome), s.operations), record, true, []))
  {
    hide AggregateFacts, Evident, Sound, Screened, Screening, MarkedRefund, Marked, Unique, Candidates,
      RetainObservation,
      Disputing;
    ReplacedNothing(s.operations);
    ScreenedExactly(s.facts, u);
    ScreeningIdentity(s.facts, u);
    NothingFound(s, u);
    SameDispute(Evident(s.facts, u), u, UncorrelatedOutcome);
    SameMark(Disputing(Evident(s.facts, u), u, UncorrelatedOutcome), s.operations);
  }

  lemma NewCorrelated(s: State, u: Update, record: Option<ReplayRecord>, i: int)
    requires Sound(s) && AggregateFacts(s.facts, u) == Ok(Evident(s.facts, u))
    requires u.OutcomePart().Some? && OnlyCorrelated(s, u, i)
    ensures var op, o := s.operations[i], u.OutcomePart().value;
      var planned := PlanNewEvidence(s.facts, u, record, s.operations);
      var inner := PlanOutcome(Evident(s.facts, u), op, o, s.operations, None);
      if !IncrementsAgree(u, op, o) then
        planned == Ok(ObservationPlan(Marked(Disputing(Evident(s.facts, u), u, ConflictingDelta), s.operations),
                                      record, true, []))
      else if inner.Err? then planned == Err(inner.error)
      else
        var changes := [inner.value.operation] + inner.value.relatedOperations;
        planned == Ok(ObservationPlan(Marked(inner.value.facts, Replaced(s.operations, changes)), record, true, changes))
  {
    hide AggregateFacts, Evident, Sound, Screened, Screening, MarkedRefund, Marked, Correlates, Candidates, Replaced,
      RetainObservation, Disputing, DeltaMatches, IncrementsAgree, PlanOutcome;
    var op, o := s.operations[i], u.OutcomePart().value;
    ReplacedNothing(s.operations);
    ScreenedExactly(s.facts, u);
    ScreeningIdentity(s.facts, u);
    FoundIsCorrelated(s, u, i);
    SameIncrements(u, op, o);
    SameDispute(Evident(s.facts, u), u, ConflictingDelta);
    SameMark(Disputing(Evident(s.facts, u), u, ConflictingDelta), s.operations);
    var inner := PlanOutcome(Evident(s.facts, u), op, o, s.operations, None);
    if inner.Ok? {
      SameMark(inner.value.facts, Replaced(s.operations, [inner.value.operation] + inner.value.relatedOperations));
    }
  }

  lemma NewVerdict(s: State, u: Update, record: Option<ReplayRecord>)
    requires Sound(s) && !ClaimsTheImpossible(s.facts, u)
    ensures var planned := PlanNewEvidence(s.facts, u, record, s.operations);
      && (planned.Ok? <==> Receivable(s, u))
      && (planned.Err? ==> planned.error == InvalidTransition)
      && (planned.Ok? ==> planned.value.replayRecord == record && NewAs(s, u, planned.value))
  {
    hide AggregateFacts, Evident, EvidentAllowed, Sound, PlanNewEvidence, Unique, OnlyCorrelated, FactsBounded,
      ClaimsTheImpossible, Marked, Disputing, Replaced, CorrelatedAs, WellFormed, IncrementsAgree;
    SoundBounded(s);
    AggregateExactly(s.facts, u);
    ReplacedNothing(s.operations);
    if !EvidentAllowed(s.facts, u) {
      RefusedAggregate(s, u, record);
    } else if u.OutcomePart().None? {
      NewAlone(s, u, record);
      forall i
        ensures !OnlyCorrelated(s, u, i)
      {
        NothingCorrelates(s, u, i);
      }
    } else if !Unique(s, u) {
      NewUncorrelated(s, u, record);
      NotUnique(s, u);
    } else {
      var i := UniqueIndex(s, u);
      NewCorrelatedVerdict(s, u, record, i);
      forall j | OnlyCorrelated(s, u, j)
        ensures i == j
      {
        OnlyOne(s, u, i, j);
      }
    }
  }

  lemma RefusedAggregate(s: State, u: Update, record: Option<ReplayRecord>)
    requires AggregateFacts(s.facts, u) == Err(InvalidTransition)
    ensures PlanNewEvidence(s.facts, u, record, s.operations) == Err(InvalidTransition)
  {
  }

  lemma NotUnique(s: State, u: Update)
    requires !Unique(s, u)
    ensures forall i :: !OnlyCorrelated(s, u, i)
  {
  }

  lemma UniqueIndex(s: State, u: Update) returns (i: int)
    requires Unique(s, u)
    ensures OnlyCorrelated(s, u, i) && 0 <= i < |s.operations|
  {
    i :| OnlyCorrelated(s, u, i);
  }

  lemma NewCorrelatedVerdict(s: State, u: Update, record: Option<ReplayRecord>, i: int)
    requires Sound(s) && AggregateFacts(s.facts, u) == Ok(Evident(s.facts, u))
    requires u.OutcomePart().Some? && OnlyCorrelated(s, u, i) && 0 <= i < |s.operations|
    ensures var op, o := s.operations[i], u.OutcomePart().value;
      var planned := PlanNewEvidence(s.facts, u, record, s.operations);
      && (planned.Ok? <==> (IncrementsAgree(u, op, o) ==> WellFormed(op, o)))
      && (planned.Err? ==> planned.error == InvalidTransition)
      && (planned.Ok? ==>
            && planned.value.replayRecord == record
            && CorrelatedAs(s, u, i, Committed(s, planned.value.facts, planned.value.operations)))
  {
    hide AggregateFacts, Evident, Sound, PlanNewEvidence, OnlyCorrelated, Marked, Disputing, Replaced, FactsAfter,
      WellFormed, IncrementsAgree, PlanOutcome, RecordedAs, Between, AnyActiveRefund;
    var op, o := s.operations[i], u.OutcomePart().value;
    ReplacedNothing(s.operations);
    NewCorrelated(s, u, record, i);
    BetweenSound(s, u);
    BetweenIs(s, u);
    var m := Between(s, u);
    if IncrementsAgree(u, op, o) {
      if WellFormed(op, o) {
        CommittedAs(m, i, o, None);
        RecordedFacts(s, m, i, o, PlanOutcome(m.facts, op, o, s.operations, None).value);
      } else {
        UnfitPlanned(m.facts, op, o, s.operations);
      }
    }
  }

  lemma BetweenIs(s: State, u: Update)
    ensures Between(s, u) == s.(facts := Evident(s.facts, u))
  {
    hide Evident;
  }

  lemma UnfitPlanned(f: PaymentFacts, op: OperationRecord, o: Outcome, operations: seq<OperationRecord>)
    requires !WellFormed(op, o)
    ensures PlanOutcome(f, op, o, operations, None) == Err(InvalidTransition)
  {
    FitsWhenWellFormed(op, o);
    hide WellFormed;
  }

  lemma RecordedFacts(s: State, m: State, i: nat, o: Outcome, plan: OutcomePlan)
    requires i < |m.operations| && m.operations == s.operations && m.replay == s.replay
    requires RecordedAs(m, i, o, None, Committed(m, plan.facts, [plan.operation] + plan.relatedOperations))
    ensures var operations := Replaced(s.operations, [plan.operation] + plan.relatedOperations);
      && plan.facts == FactsAfter(m.facts, s.operations[i], o, s.operations, AnyActiveRefund(operations))
      && RecordedAs(m, i, o, None, State(plan.facts, operations, s.replay))
  {
    hide Replaced, FactsAfter, OperationAfter, OtherAfter, AnyActiveRefund, Takes;
  }

  // ---- every observation ----

  lemma SameLog(s: State, u: Update)
    ensures ReplayFor(s.facts, u).None? <==> Logged(s.facts, u) == []
    ensures ReplayFor(s.facts, u).Some? ==> Logged(s.facts, u) == [ReplayFor(s.facts, u).value]
  {
    hide ContentOf;
  }

  /** An observation is accepted exactly when it is well-formed and, if it is new and possible, its event is a
      transition of the payment and its outcome is evidence about the operation it correlates with. What it leaves
      is then completely determined. */
  lemma ObservationVerdict(s: State, u: Update)
    requires Sound(s)
    ensures var next := Step(s, Observe(Some(u)));
      && (next.Ok? <==> ObservationAllowed(s, u))
      && (next.Err? ==> next.error == InvalidTransition)
      && (next.Ok? ==> ObservedAs(s, u, next.value))
  {
    hide Sound, PlanNewEvidence, FinanciallyPossible, ClaimsTheImpossible, KnownReplay, ContentOf, ObservationValid,
      WellFormedObservation, Evident, EvidentAllowed, Unique, Correlates, CorrelatedAs, Replaced, Disputing,
      RetainObservation, Marked, WellFormed, IncrementsAgree, FactsBounded;
    SoundBounded(s);
    SameShape(u);
    SameLog(s, u);
    ImpossibleMeansClaimed(s.facts, u);
    ReplacedNothing(s.operations);
    SameDispute(s.facts, u, ConflictingIdentity);
    SameDispute(s.facts, u, FinancialConstraints);
    SameRecordFound(s, u);
    assert Step(s, Observe(Some(u))) == StepObserve(s, Some(u));
    if NewAndPossible(s, u) {
      NewVerdict(s, u, ReplayFor(s.facts, u));
      if Step(s, Observe(Some(u))).Ok? && u.OutcomePart().Some? {
        var plan := PlanNewEvidence(s.facts, u, ReplayFor(s.facts, u), s.operations).value;
        forall i | OnlyCorrelated(s, u, i) && 0 <= i < |s.operations|
          ensures CorrelatedAs(s, u, i, Committed(s, plan.facts, plan.operations))
              ==> CorrelatedAs(s, u, i, Step(s, Observe(Some(u))).value)
        {
          CorrelationIgnoresLog(s, u, i, Committed(s, plan.facts, plan.operations), Step(s, Observe(Some(u))).value);
        }
      }
    }
  }

  lemma CorrelationIgnoresLog(s: State, u: Update, i: int, t: State, v: State)
    requires 0 <= i < |s.operations| && u.OutcomePart().Some? && t.operations == v.operations && t.facts == v.facts
    ensures CorrelatedAs(s, u, i, t) ==> CorrelatedAs(s, u, i, v)
  {
  }

  lemma {:induction false} FoundShares(log: seq<ReplayRecord>, record: ReplayRecord)
    ensures KnownReplay(log, record).Some? ==> KnownReplay(log, record).value.ScopedIdentity() == record.ScopedIdentity()
  {
    if log != [] {
      FoundShares(log[1..], record);
    }
  }

  /** A known event repeats itself exactly when its digest is the logged one. */
  lemma SameRecordFound(s: State, u: Update)
    ensures !NewEvent(s, u) ==>
      (Repeats(s, u) <==> KnownReplay(s.replay, ReplayFor(s.facts, u).value).value.contentDigest == ContentOf(u))
    ensures Repeats(s, u) ==> !NewEvent(s, u)
  {
    hide ContentOf, KnownReplay;
    var record := ReplayFor(s.facts, u);
    if record.Some? {
      FoundShares(s.replay, record.value);
    }
  }

  /** An accepted observation with an event identity that is new and possible is logged with exactly its own
      content; any other accepted observation, and every other call, leaves the log as it is. */
  lemma ObservationLogged(s: State, c: Command)
    requires Sound(s) && Step(s, c).Ok?
    ensures Step(s, c).value.replay
         == if c.Observe? && c.update.Some? && NewAndPossible(s, c.update.value)
            then s.replay + Logged(s.facts, c.update.value) else s.replay
  {
    hide Sound, StepObserve, PlanReservation, PlanSubmission, PlanOutcome, PlanResolution, PlanFailure, Evident, Logged,
      NewEvent, ClaimsTheImpossible, Marked, CorrelatedAs, Unique, OnlyCorrelated, Disputing, Repeats, ObservationAllowed;
    if c.Observe? {
      if c.update.Some? {
        ObservationVerdict(s, c.update.value);
      } else {
        NoObservation(s);
      }
    }
  }

  /** An outcome that asks for reconciliation flags the operation it correlates with, and the payment. */
  lemma CorrelatedRequestFlags(s: State, u: Update, i: int)
    requires Sound(s) && Step(s, Observe(Some(u))).Ok? && NewAndPossible(s, u) && OnlyCorrelated(s, u, i)
    requires u.OutcomePart().Some? && u.OutcomePart().value.reconciliationRequired
    requires IncrementsAgree(u, s.operations[i], u.OutcomePart().value)
    ensures var t := Step(s, Observe(Some(u))).value;
      && |t.operations| == |s.operations|
      && t.operations[i].reconciliationRequired
      && t.facts.reconciliationRequired
  {
    hide Sound, Step, ObservationAllowed, Evident, Correlates, IncrementsAgree, NewEvent, ClaimsTheImpossible, Takes,
      Contradicts, ConfirmedFacts, MoneyStatus, AnyActiveRefund, Outside, HandlesAgree, OtherAfter, Logged;
    ObservationVerdict(s, u);
    assert Unique(s, u);
  }

  // ---- an event is applied once ----

  lemma {:induction false} KnownMeans(log: seq<ReplayRecord>, record: ReplayRecord)
    ensures KnownReplay(log, record).None? <==> forall r :: r in log ==> !SameScope(r, record)
  {
    if log != [] {
      KnownMeans(log[1..], record);
      assert log[0].ScopedIdentity() == record.ScopedIdentity() <==> SameScope(log[0], record);
      assert log[0] in log && forall r :: r in log <==> r == log[0] || r in log[1..];
    }
  }

  /** Identities are compared within one payment and one provider. */
  predicate SameScope(a: ReplayRecord, b: ReplayRecord) {
    a.paymentId == b.paymentId && a.backend == b.backend && a.eventIdentity == b.eventIdentity
  }

  /** An observation is new when it has no identity, or one under which this provider reported nothing about this
      payment. */
  lemma NewEventMeans(s: State, u: Update)
    ensures NewEvent(s, u) <==>
      || u.providerEventId in {None, Some("")}
      || forall r :: r in s.replay ==>
           !(r.paymentId == s.facts.paymentId && r.backend == s.facts.backend && Some(r.eventIdentity) == u.providerEventId)
  {
    var record := ReplayFor(s.facts, u);
    if record.Some? {
      KnownMeans(s.replay, record.value);
      hide KnownReplay, ContentOf;
      assert forall r :: r in s.replay ==> (SameScope(r, record.value) <==>
        r.paymentId == s.facts.paymentId && r.backend == s.facts.backend && Some(r.eventIdentity) == u.providerEventId);
    }
  }

  ghost predicate LoggedOnce(log: seq<ReplayRecord>) {
    forall i, j :: 0 <= i < j < |log| ==> !SameScope(log[i], log[j])
  }

  lemma StaysLoggedOnce(s: State, c: Command)
    requires Sound(s) && LoggedOnce(s.replay)
    ensures LoggedOnce(After(s, c).replay)
  {
    hide Sound, Step, NewEvent, ClaimsTheImpossible, ContentOf;
    if Step(s, c).Ok? {
      ObservationLogged(s, c);
      if c.Observe? && c.update.Some? && NewAndPossible(s, c.update.value) {
        NewEventMeans(s, c.update.value);
      }
    }
  }

  /** In every run each event identity is applied at most once, whatever is delivered how often. */
  lemma {:induction false} AppliedOnce(s: State, commands: seq<Command>)
    requires Sound(s) && LoggedOnce(s.replay)
    ensures LoggedOnce(Run(s, commands).replay)
  {
    if commands == [] {
    } else {
      var rest := commands[..|commands| - 1];
      AppliedOnce(s, rest);
      RunDevelops(s, rest);
      hide Sound, After, LoggedOnce;
      StaysLoggedOnce(Run(s, rest), commands[|commands| - 1]);
    }
  }
}
