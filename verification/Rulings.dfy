/** What an audited decision may do, completely: exactly when a new decision is accepted, and every field it
    leaves. */
module Rulings {
  import opened Wrappers
  import opened Records
  import opened StateEngine
  import opened RefundTotal
  import opened Rules
  import opened Resolution
  import opened Effects
  import opened System
  import opened History
  import opened Steps
  import opened Decisions
  import opened Recording
  import opened Evidence
  import opened Lifecycle
  import opened Verdicts
  import opened Outcomes

  // ---- the condition ----

  /** An attributed decision for a definite end, with evidence for it. */
  predicate Evidenced(d: Decision) {
    && "" !in {d.resolutionId, d.actor, d.reason}
    && |d.evidenceReferences| > 0
    && d.outcome.state in {Succeeded, Rejected}
    && !d.outcome.reconciliationRequired
  }

  /** The decision states another amount than the confirmed one. */
  predicate Revises(op: OperationRecord, o: Outcome) {
    op.state == Succeeded && Amount(op, o) != op.settledAmount
  }

  /** The decision does more than repeat a confirmed effect. */
  predicate Moves(op: OperationRecord, o: Outcome) {
    op.state != Succeeded || Revises(op, o)
  }

  /** What can be checked before the call: the decision fits the operation, its handles and its reservation;
      it undoes nothing confirmed and only raises an amount; it revives no older intent; there is room for the money;
      and no other operation is flagged if the payment is to be cleared. */
  ghost predicate DecisionAllowed(s: State, i: nat, d: Decision)
    requires i < |s.operations|
  {
    var op, o := s.operations[i], d.outcome;
    && WellFormed(op, o)
    && HandlesAgree(s.facts, op, o)
    && !Outside(op, o)
    && (op.state == Succeeded ==> o.state == Succeeded)
    && (Revises(op, o) ==>
          op.settledAmount.Some? && Amount(op, o).Some? && op.settledAmount.value < Amount(op, o).value)
    && (Revises(op, o) || (op.state == Rejected && o.state == Succeeded) ==>
          forall r :: r in s.operations ==> r.reservationSequence <= op.reservationSequence)
    && (Moves(op, o) ==> !NoRoom(s.facts, op, o, s.operations))
    && (d.clearPaymentReconciliation ==>
          forall n :: 0 <= n < |s.operations| && n != i ==> !s.operations[n].reconciliationRequired)
  }

  // ---- the result ----

  /** The operation ends as decided and quiet. A corrected amount joins its disputes. */
  function RuledRecord(op: OperationRecord, d: Decision): OperationRecord {
    var o := d.outcome;
    op.(state := o.state,
        settledAmount := if o.state == Succeeded then Amount(op, o) else op.settledAmount,
        correlation := if op.correlation.Some? then op.correlation else o.correlation,
        reconciliationRequired := false,
        pendingResponseAttempts := [],
        conflictingOutcomes :=
          if Revises(op, o)
          then Added(op.conflictingOutcomes, Outcome(Succeeded, op.settledAmount, op.correlation, false, None))
          else op.conflictingOutcomes,
        resolutions := op.resolutions + [d])
  }

  /** The decision ends another operation: the refund that a confirmed cancellation names. */
  ghost predicate EndsAnother(s: State, i: nat, o: Outcome)
    requires i < |s.operations|
  {
    var op := s.operations[i];
    exists n :: 0 <= n < |s.operations| && n != i
      && OtherAfter(op, o, Moves(op, o), s.operations[n]) != s.operations[n]
  }

  /** The money a decision confirms, before the marker and the flag. */
  ghost function RuledMoney(s: State, i: nat, o: Outcome, active: bool): PaymentFacts
    requires i < |s.operations|
  {
    var op := s.operations[i];
    var g := if Moves(op, o) && o.state == Succeeded
             then ConfirmedFacts(s.facts, op, Amount(op, o).GetOr(0.0), ReturnedInAll(op, o, s.operations)) else s.facts;
    g.(externalId := if o.externalId.Some? then o.externalId else s.facts.externalId,
       status := if !Moves(op, o) || !RefundOperation(op) then g.status
                 else if active then RefundStarted
                 else MoneyStatus(g))
  }

  /** A decision about an ended operation keeps the marker of other refund work, unless it ends that work. The
      payment is cleared on request. */
  ghost function RuledFacts(s: State, i: nat, d: Decision, active: bool): PaymentFacts
    requires i < |s.operations|
  {
    var op := s.operations[i];
    var g := RuledMoney(s, i, d.outcome, active);
    var keeps := op.state.Terminal() && s.facts.status == RefundStarted && !EndsAnother(s, i, d.outcome);
    g.(status := if keeps then RefundStarted else g.status,
       reconciliationRequired := g.reconciliationRequired && !d.clearPaymentReconciliation)
  }

  ghost predicate RuledAs(s: State, i: nat, d: Decision, t: State)
    requires i < |s.operations|
  {
    var op := s.operations[i];
    && |t.operations| == |s.operations|
    && t.operations[i] == RuledRecord(op, d)
    && (forall n :: 0 <= n < |s.operations| && n != i ==>
          t.operations[n] == OtherAfter(op, d.outcome, Moves(op, d.outcome), s.operations[n]))
    && t.facts == RuledFacts(s, i, d, AnyActiveRefund(t.operations))
    && t.replay == s.replay
  }

  // ---- the refund total does not read flags and disputes ----

  /** The records contribute the same to every refund total. */
  ghost predicate SameBounds(xs: seq<OperationRecord>, ys: seq<OperationRecord>) {
    && |xs| == |ys|
    && forall k :: 0 <= k < |xs| ==>
         && xs[k].reservationSequence == ys[k].reservationSequence
         && xs[k].startingRefunded == ys[k].startingRefunded
         && RefundTotal.Confirmed(xs[k]) == RefundTotal.Confirmed(ys[k])
  }

  lemma {:induction false} InsertSame(a: OperationRecord, b: OperationRecord, xs: seq<OperationRecord>,
                                      ys: seq<OperationRecord>)
    requires SameBounds([a], [b]) && SameBounds(xs, ys)
    ensures SameBounds(Insert(a, xs), Insert(b, ys))
  {
    assert [a][0] == a && [b][0] == b;
    if xs != [] && a.reservationSequence < xs[0].reservationSequence {
      InsertSame(a, b, xs[1..], ys[1..]);
    }
  }

  lemma {:induction false} SortSame(xs: seq<OperationRecord>, ys: seq<OperationRecord>)
    requires SameBounds(xs, ys)
    ensures SameBounds(SortDescending(xs), SortDescending(ys))
  {
    if xs != [] {
      SortSame(xs[1..], ys[1..]);
      InsertSame(xs[0], ys[0], SortDescending(xs[1..]), SortDescending(ys[1..]));
    }
  }

  lemma {:induction false} AccumulateSame(xs: seq<OperationRecord>, ys: seq<OperationRecord>, confirmed: Money,
                                          cumulative: Money)
    requires SameBounds(xs, ys)
    ensures Accumulate(xs, confirmed, cumulative) == Accumulate(ys, confirmed, cumulative)
  {
    if xs != [] {
      var next := confirmed + RefundTotal.Confirmed(xs[0]);
      AccumulateSame(xs[1..], ys[1..], next, Max(cumulative, xs[0].startingRefunded + next));
    }
  }

  lemma {:induction false} SameOtherRefunds(a: OperationRecord, b: OperationRecord, operations: seq<OperationRecord>)
    requires a.paymentId == b.paymentId && a.operationId == b.operationId
    ensures OtherRefunds(a, operations) == OtherRefunds(b, operations)
  {
    if operations != [] {
      SameOtherRefunds(a, b, operations[1..]);
    }
  }

  lemma SameReturned(a: OperationRecord, b: OperationRecord, o: Outcome, operations: seq<OperationRecord>)
    requires SameIntent(a, b)
    ensures ReturnedInAll(a, o, operations) == ReturnedInAll(b, o, operations)
  {
    var amount := Amount(a, o).GetOr(0.0);
    SameOtherRefunds(a, b, operations);
    var xs, ys := RefundHistory(a, amount, operations), RefundHistory(b, amount, operations);
    SortSame(xs, ys);
    AccumulateSame(SortDescending(xs), SortDescending(ys), 0.0, 0.0);
  }

  // ---- the reopened record ----

  /** The record handed to the planner differs from the retained one only where the decision may overrule it. */
  lemma ReopenedAs(op: OperationRecord, o: Outcome)
    requires WellFormed(op, o)
    ensures var r := Reopened(op, o);
      && r == op.(reconciliationRequired := false, state := r.state, conflictingOutcomes := r.conflictingOutcomes)
      && r.state == (if op.state == Rejected || Revises(op, o) then Unknown else op.state)
      && r.conflictingOutcomes
         == (if Revises(op, o)
             then Added(op.conflictingOutcomes, Outcome(Succeeded, op.settledAmount, op.correlation, false, None))
             else op.conflictingOutcomes)
      && SameIntent(op, r)
      && (ChangesSettlement(op, o) <==> Revises(op, o))
  {
  }

  /** A terminal outcome for the reopened record is admissible unless it repeats a confirmed effect, and then
      contradicts nothing. */
  lemma ReopenedTests(s: State, i: nat, d: Decision)
    requires Sound(s) && i < |s.operations| && WellFormed(s.operations[i], d.outcome) && Evidenced(d)
    requires s.operations[i].state == Succeeded ==> d.outcome.state == Succeeded
    ensures var op, o := s.operations[i], d.outcome;
      var r := Reopened(op, o);
      var fits := HandlesAgree(s.facts, op, o) && !Outside(op, o);
      && WellFormed(r, o) && Amount(r, o) == Amount(op, o) && Outside(r, o) == Outside(op, o)
      && HandlesAgree(s.facts, r, o) == HandlesAgree(s.facts, op, o)
      && (Takes(s.facts, r, o, s.operations) <==> fits && Moves(op, o) && !NoRoom(s.facts, op, o, s.operations))
      && (Contradicts(s.facts, r, o, s.operations) <==>
            !fits || (Moves(op, o) && NoRoom(s.facts, op, o, s.operations)))
  {
    var op, o := s.operations[i], d.outcome;
    ReopenedAs(op, o);
    SameReturned(op, Reopened(op, o), o, s.operations);
    hide Reopened, ReturnedInAll, CancelledBefore, Sound, ChangesSettlement;
  }

  // ---- the plan ----

  /** What the planner makes of the reopened record. */
  ghost predicate PlanRules(s: State, i: nat, d: Decision, plan: OutcomePlan)
    requires i < |s.operations|
  {
    var op, o := s.operations[i], d.outcome;
    var seen := Replaced(s.operations, [plan.operation] + plan.relatedOperations) + [plan.operation];
    && plan.operation.(resolutions := op.resolutions + [d], pendingResponseAttempts := []) == RuledRecord(op, d)
    && plan.facts == RuledMoney(s, i, o, AnyActiveRefund(seen))
    && Completes(s, op, o, Moves(op, o), plan.relatedOperations)
  }

  ghost predicate Unopposed(s: State, i: nat, d: Decision)
    requires i < |s.operations|
  {
    var op, o := s.operations[i], d.outcome;
    HandlesAgree(s.facts, op, o) && !Outside(op, o) && (Moves(op, o) ==> !NoRoom(s.facts, op, o, s.operations))
  }

  lemma RuledPlan(s: State, i: nat, d: Decision)
    requires Sound(s) && i < |s.operations| && WellFormed(s.operations[i], d.outcome) && Evidenced(d)
    requires s.operations[i].state == Succeeded ==> d.outcome.state == Succeeded
    ensures var planned := PlanOutcome(s.facts, Reopened(s.operations[i], d.outcome), d.outcome, s.operations, None);
      && planned.Ok?
      && (planned.value.operation.reconciliationRequired <==> !Unopposed(s, i, d))
      && (Unopposed(s, i, d) ==> PlanRules(s, i, d, planned.value))
  {
    var op, o := s.operations[i], d.outcome;
    var r := Reopened(op, o);
    ReopenedAs(op, o);
    ReopenedTests(s, i, d);
    PlannedExactly(s, i, r, o);
    var plan := PlanEvidence(s.facts, r, o, s.operations).value;
    if Unopposed(s, i, d) {
      RuledRecordPlanned(s, i, d);
      var after := Replaced(s.operations, [plan.operation] + plan.relatedOperations);
      RuledFactsPlanned(s, i, d, AnyActiveRefund(after + [plan.operation]));
      SameCompletion(s, op, r, o, Moves(op, o), plan.relatedOperations);
    }
    hide PlanEvidence, Reopened, OperationAfter, FactsAfter, Takes, Contradicts, RuledRecord, RuledMoney, Completes,
      Replaced, AnyActiveRefund, Sound, WellFormed, Moves, NoRoom, Outside, HandlesAgree, ChangesSettlement;
    assert plan.operation.reconciliationRequired <==> Contradicts(s.facts, r, o, s.operations) by {
      FlagOfPlan(s, r, o);
    }
  }

  lemma FlagOfPlan(s: State, r: OperationRecord, o: Outcome)
    ensures OperationAfter(s.facts, r, o, s.operations).reconciliationRequired <==>
      r.reconciliationRequired || o.reconciliationRequired || Contradicts(s.facts, r, o, s.operations)
  {
    hide Contradicts, Takes;
  }

  lemma RuledRecordPlanned(s: State, i: nat, d: Decision)
    requires Sound(s) && i < |s.operations| && WellFormed(s.operations[i], d.outcome) && Evidenced(d)
    requires (s.operations[i].state == Succeeded ==> d.outcome.state == Succeeded) && Unopposed(s, i, d)
    ensures var op := s.operations[i];
      OperationAfter(s.facts, Reopened(op, d.outcome), d.outcome, s.operations).(
        resolutions := op.resolutions + [d], pendingResponseAttempts := []) == RuledRecord(op, d)
  {
    ReopenedAs(s.operations[i], d.outcome);
    ReopenedTests(s, i, d);
    hide Reopened, Takes, Contradicts, NoRoom, Outside, HandlesAgree, Sound, WellFormed, ChangesSettlement;
  }

  lemma RuledFactsPlanned(s: State, i: nat, d: Decision, active: bool)
    requires Sound(s) && i < |s.operations| && WellFormed(s.operations[i], d.outcome) && Evidenced(d)
    requires (s.operations[i].state == Succeeded ==> d.outcome.state == Succeeded) && Unopposed(s, i, d)
    ensures FactsAfter(s.facts, Reopened(s.operations[i], d.outcome), d.outcome, s.operations, active)
         == RuledMoney(s, i, d.outcome, active)
  {
    var op, o := s.operations[i], d.outcome;
    var r := Reopened(op, o);
    ReopenedAs(op, o);
    ReopenedTests(s, i, d);
    SameReturned(op, r, o, s.operations);
    FlagOfPlan(s, r, o);
    SameConfirmed(s.facts, op, r, Amount(op, o).GetOr(0.0), ReturnedInAll(op, o, s.operations));
    hide Reopened, Takes, Contradicts, NoRoom, Outside, HandlesAgree, Sound, WellFormed, ChangesSettlement,
      OperationAfter, ConfirmedFacts, ReturnedInAll, MoneyStatus;
  }

  lemma SameConfirmed(f: PaymentFacts, a: OperationRecord, b: OperationRecord, amount: Money, returned: Money)
    requires SameIntent(a, b)
    ensures ConfirmedFacts(f, a, amount, returned) == ConfirmedFacts(f, b, amount, returned)
  {
  }

  lemma SameCompletion(s: State, a: OperationRecord, b: OperationRecord, o: Outcome, takes: bool,
                       related: seq<OperationRecord>)
    requires SameIntent(a, b) && Completes(s, b, o, takes, related)
    ensures Completes(s, a, o, takes, related)
  {
    if takes && o.state == Succeeded && b.operationType == CancelRefund {
      var k :| CompletesAt(s, b, k, related);
      assert CompletesAt(s, a, k, related);
    }
  }

  // ---- the verdict ----

  lemma {:induction false} NewDecision(decisions: seq<Decision>, id: string)
    ensures FindDecision(decisions, id).None? <==> forall e :: e in decisions ==> e.resolutionId != id
  {
    if decisions != [] {
      NewDecision(decisions[1..], id);
      assert forall e :: e in decisions <==> e == decisions[0] || e in decisions[1..];
    }
  }

  lemma SameLimits(s: State, i: nat, d: Decision)
    requires Sound(s) && i < |s.operations| && WellFormed(s.operations[i], d.outcome)
    ensures var op, o := s.operations[i], d.outcome;
      && (ChangesSettlement(op, o) <==> Revises(op, o))
      && (Revises(op, o) && !Outside(op, o) ==>
            (CorrectionAllowed(op, o) <==>
               op.settledAmount.Some? && Amount(op, o).Some? && op.settledAmount.value < Amount(op, o).value))
      && (CorrectionAllowed(op, o) ==> Amount(op, o).Some? && op.settledAmount.Some?)
      && (LaterIntent(op, s.operations) <==>
            !forall r :: r in s.operations ==> r.reservationSequence <= op.reservationSequence)
  {
    assert RecordSound(s.facts, s.operations[i]);
    hide Sound;
  }

  /** Nothing else is flagged exactly when no operation is once the decided one is quiet. */
  lemma QuietElsewhere(s: State, i: nat, d: Decision, after: seq<OperationRecord>)
    requires i < |s.operations| && |after| == |s.operations| && after[i] == RuledRecord(s.operations[i], d)
    requires forall n :: 0 <= n < |s.operations| && n != i ==>
      after[n] == OtherAfter(s.operations[i], d.outcome, Moves(s.operations[i], d.outcome), s.operations[n])
    ensures (exists r :: r in after && r.reconciliationRequired) <==>
      exists n :: 0 <= n < |s.operations| && n != i && s.operations[n].reconciliationRequired
  {
    hide Moves, Revises;
    if n :| 0 <= n < |s.operations| && n != i && s.operations[n].reconciliationRequired {
      assert after[n] in after;
    }
    if r :| r in after && r.reconciliationRequired {
      var n :| 0 <= n < |after| && after[n] == r;
      assert n != i && s.operations[n].reconciliationRequired;
    }
  }

  /** The planner's marker rule, seen from the committed history. */
  lemma EndedBySame(s: State, i: nat, d: Decision, related: seq<OperationRecord>)
    requires Sound(s) && i < |s.operations|
    requires Completes(s, s.operations[i], d.outcome, Moves(s.operations[i], d.outcome), related)
    ensures EndsAnother(s, i, d.outcome) <==> related != []
  {
    hide Sound, Moves;
    var op, o := s.operations[i], d.outcome;
    if Moves(op, o) && o.state == Succeeded && op.operationType == CancelRefund {
      var k :| CompletesAt(s, op, k, related);
      if related != [] {
        assert OtherAfter(op, o, Moves(op, o), s.operations[k]) != s.operations[k];
      }
    }
  }

  lemma SameEvidence(d: Decision)
    ensures DecisionValid(d) <==> Evidenced(d)
  {
  }

  /** An outcome that is no evidence about the operation is none about the reopened record. */
  lemma UnfitRuling(s: State, i: nat, o: Outcome)
    requires i < |s.operations| && !WellFormed(s.operations[i], o)
    ensures PlanOutcome(s.facts, Reopened(s.operations[i], o), o, s.operations, None).Err?
  {
    FitsWhenWellFormed(s.operations[i], o);
    RefusedWhenUnfit(s.facts, Reopened(s.operations[i], o), o, s.operations);
    hide PlanEvidence;
  }

  /** The records of an unopposed ruling, committed. */
  lemma RuledRecords(s: State, i: nat, d: Decision, plan: OutcomePlan)
    requires Sound(s) && i < |s.operations| && PlanRules(s, i, d, plan)
    ensures var op := s.operations[i];
      var after := Replaced(s.operations, [RuledRecord(op, d)] + plan.relatedOperations);
      && |after| == |s.operations|
      && after[i] == RuledRecord(op, d)
      && (forall n :: 0 <= n < |s.operations| && n != i ==>
            after[n] == OtherAfter(op, d.outcome, Moves(op, d.outcome), s.operations[n]))
      && ((exists r :: r in after && r.reconciliationRequired) <==>
            exists n :: 0 <= n < |s.operations| && n != i && s.operations[n].reconciliationRequired)
  {
    var op, o := s.operations[i], d.outcome;
    RuledIdentity(op, d);
    hide Sound, Replaced, AnyActiveRefund, RuledMoney, RuledRecord, OtherAfter, Moves, Completes;
    CommittedRecords(s, i, op, o, Moves(op, o), RuledRecord(op, d), plan.relatedOperations);
    QuietElsewhere(s, i, d, Replaced(s.operations, [RuledRecord(op, d)] + plan.relatedOperations));
  }

  lemma RuledIdentity(op: OperationRecord, d: Decision)
    ensures RuledRecord(op, d).operationId == op.operationId && SameIntent(op, op)
  {
    hide Revises;
  }

  /** The facts of an unopposed ruling, committed. */
  lemma RuledCommit(s: State, i: nat, d: Decision, plan: OutcomePlan)
    requires Sound(s) && i < |s.operations| && PlanRules(s, i, d, plan)
    requires plan.operation.operationId == s.operations[i].operationId
    requires plan.operation.ActiveRefund() == RuledRecord(s.operations[i], d).ActiveRefund()
    ensures var op := s.operations[i];
      var after := Replaced(s.operations, [RuledRecord(op, d)] + plan.relatedOperations);
      WithMarker(s.facts, op, plan).(reconciliationRequired := plan.facts.reconciliationRequired && !d.clearPaymentReconciliation)
      == RuledFacts(s, i, d, AnyActiveRefund(after))
  {
    var op, o := s.operations[i], d.outcome;
    RuledIdentity(op, d);
    hide Sound, Replaced, AnyActiveRefund, RuledMoney, RuledRecord, Moves, Completes, EndsAnother;
    SeenIsCommitted(s, i, op, o, Moves(op, o), plan.operation, RuledRecord(op, d), plan.relatedOperations);
    EndedBySame(s, i, d, plan.relatedOperations);
  }

  /** The limits that are checked before the planner is asked. */
  ghost predicate WithinLimits(s: State, i: nat, d: Decision)
    requires i < |s.operations|
  {
    var op, o := s.operations[i], d.outcome;
    && (op.state == Succeeded ==> o.state == Succeeded)
    && (Revises(op, o) ==> CorrectionAllowed(op, o))
    && (Revises(op, o) || (op.state == Rejected && o.state == Succeeded) ==> !LaterIntent(op, s.operations))
  }

  /** Resolving, once its planner's answer is known. */
  lemma ResolutionShape(s: State, i: nat, d: Decision)
    requires i < |s.operations| && FactsBounded(s.facts) && s.operations[i].paymentId == s.facts.paymentId
    requires FindDecision(s.operations[i].resolutions, d.resolutionId).None?
    requires ChangesSettlement(s.operations[i], d.outcome) <==> Revises(s.operations[i], d.outcome)
    ensures var op := s.operations[i];
      var inner := PlanOutcome(s.facts, Reopened(op, d.outcome), d.outcome, s.operations, None);
      var planned := PlanResolution(s.facts, op, d, s.facts, op, s.operations);
      if !DecisionValid(d) || !WithinLimits(s, i, d) || inner.Err? || inner.value.operation.reconciliationRequired
      then planned.Err?
      else
        var recorded := inner.value.operation.(resolutions := op.resolutions + [d], pendingResponseAttempts := []);
        var after := Replaced(s.operations, [recorded] + inner.value.relatedOperations);
        var marked := WithMarker(s.facts, op, inner.value);
        && (planned.Err? <==> d.clearPaymentReconciliation && exists r :: r in after && r.reconciliationRequired)
        && (planned.Ok? ==>
              && planned.value.operation == recorded
              && planned.value.relatedOperations == inner.value.relatedOperations
              && planned.value.facts == marked.(
                   reconciliationRequired := marked.reconciliationRequired && !d.clearPaymentReconciliation))
  {
    hide PlanOutcome, Reopened, Replaced, LaterIntent, CorrectionAllowed, ChangesSettlement, Revises, FindDecision,
      DecisionValid, FactsBounded, WithMarker;
  }

  lemma LimitsMean(s: State, i: nat, d: Decision)
    requires Sound(s) && i < |s.operations| && WellFormed(s.operations[i], d.outcome)
    ensures DecisionAllowed(s, i, d) <==>
      && WithinLimits(s, i, d)
      && Unopposed(s, i, d)
      && (d.clearPaymentReconciliation ==>
            forall n :: 0 <= n < |s.operations| && n != i ==> !s.operations[n].reconciliationRequired)
  {
    SameLimits(s, i, d);
    hide Sound, LaterIntent, CorrectionAllowed, ChangesSettlement, WellFormed, HandlesAgree, Outside, NoRoom, Revises,
      Moves,
      Amount;
  }

  lemma AllowedFits(s: State, i: nat, d: Decision)
    requires i < |s.operations| && DecisionAllowed(s, i, d)
    ensures WellFormed(s.operations[i], d.outcome)
  {
  }

  lemma RetainedContext(s: State, i: nat)
    requires Sound(s) && i < |s.operations|
    ensures FactsBounded(s.facts) && s.operations[i].paymentId == s.facts.paymentId
  {
    assert RecordSound(s.facts, s.operations[i]);
  }

  lemma ChangeIsRevision(op: OperationRecord, o: Outcome)
    ensures ChangesSettlement(op, o) <==> Revises(op, o)
  {
  }

  /** The decision of a current review, planned. */
  lemma ResolutionPlanned(s: State, i: nat, d: Decision)
    requires Sound(s) && i < |s.operations|
    requires FindDecision(s.operations[i].resolutions, d.resolutionId).None?
    ensures var op := s.operations[i];
      var planned := PlanResolution(s.facts, op, d, s.facts, op, s.operations);
      && (planned.Ok? <==> Evidenced(d) && DecisionAllowed(s, i, d))
      && (planned.Ok? ==>
            RuledAs(s, i, d, Committed(s, planned.value.facts, [planned.value.operation] + planned.value.relatedOperations)))
  {
    hide Sound, PlanOutcome, PlanResolution, Reopened, Replaced, FindDecision, WellFormed, DecisionValid, Evidenced,
      RuledRecord, RuledFacts, OtherAfter, FactsBounded, AnyActiveRefund, WithMarker, PlanRules, DecisionAllowed, Unopposed,
      CorrectionAllowed, LaterIntent, Revises, Moves, ChangesSettlement;
    var op, o := s.operations[i], d.outcome;
    SameEvidence(d);
    RetainedContext(s, i);
    ChangeIsRevision(op, o);
    ResolutionShape(s, i, d);
    if !WellFormed(op, o) {
      UnfitRuling(s, i, o);
      if DecisionAllowed(s, i, d) {
        AllowedFits(s, i, d);
      }
    } else {
      LimitsMean(s, i, d);
      if Evidenced(d) && WithinLimits(s, i, d) {
        RuledPlan(s, i, d);
        if Unopposed(s, i, d) {
          ResolutionCommitted(s, i, d);
        }
      }
    }
  }

  /** The end of `ResolutionPlanned`, for an unopposed decision within its limits. */
  lemma ResolutionCommitted(s: State, i: nat, d: Decision)
    requires Sound(s) && i < |s.operations|
    requires var inner := PlanOutcome(s.facts, Reopened(s.operations[i], d.outcome), d.outcome, s.operations, None);
      inner.Ok? && PlanRules(s, i, d, inner.value)
    ensures var op := s.operations[i];
      var inner := PlanOutcome(s.facts, Reopened(op, d.outcome), d.outcome, s.operations, None).value;
      var recorded := inner.operation.(resolutions := op.resolutions + [d], pendingResponseAttempts := []);
      var marked := WithMarker(s.facts, op, inner);
      var g := marked.(reconciliationRequired := marked.reconciliationRequired && !d.clearPaymentReconciliation);
      && ((exists r :: r in Replaced(s.operations, [recorded] + inner.relatedOperations) && r.reconciliationRequired) <==>
            exists n :: 0 <= n < |s.operations| && n != i && s.operations[n].reconciliationRequired)
      && RuledAs(s, i, d, Committed(s, g, [recorded] + inner.relatedOperations))
  {
    hide Sound, PlanOutcome, Reopened, Replaced, RuledRecord, RuledFacts, RuledMoney, OtherAfter, AnyActiveRefund,
      Completes,
      Moves;
    var inner := PlanOutcome(s.facts, Reopened(s.operations[i], d.outcome), d.outcome, s.operations, None).value;
    PlannedIdentity(s, i, d, inner);
    RuledRecords(s, i, d, inner);
    RuledCommit(s, i, d, inner);
  }

  lemma PlannedIdentity(s: State, i: nat, d: Decision, plan: OutcomePlan)
    requires i < |s.operations| && PlanRules(s, i, d, plan)
    ensures plan.operation.operationId == s.operations[i].operationId
    ensures plan.operation.ActiveRefund() == RuledRecord(s.operations[i], d).ActiveRefund()
  {
    var r := plan.operation.(resolutions := s.operations[i].resolutions + [d], pendingResponseAttempts := []);
    assert r.operationId == plan.operation.operationId && r.ActiveRefund() == plan.operation.ActiveRefund();
  }

  /** A new decision is accepted exactly when it was reviewed against the current state and is allowed. It then
      ends its operation as decided, quiet and answered, and moves exactly the money it confirms. */
  lemma DecisionVerdict(s: State, i: nat, d: Decision, expectedOperation: OperationRecord, expectedFacts: PaymentFacts)
    requires Sound(s) && i < |s.operations|
    requires forall e :: e in s.operations[i].resolutions ==> e.resolutionId != d.resolutionId
    ensures var op := s.operations[i];
      var next := Step(s, Resolve(op.operationId, d, expectedOperation, expectedFacts));
      var current := expectedOperation == op && expectedFacts == s.facts;
      && (next.Ok? <==> Evidenced(d) && current && DecisionAllowed(s, i, d))
      && (Evidenced(d) && !current ==> next == Err(StateConflict))
      && (next.Ok? ==> RuledAs(s, i, d, next.value))
  {
    var op := s.operations[i];
    FindsItself(s, i);
    SameEvidence(d);
    NewDecision(op.resolutions, d.resolutionId);
    ResolutionPlanned(s, i, d);
    hide Sound, RuledAs, DecisionAllowed, PlanOutcome, Reopened, Replaced, LaterIntent, CorrectionAllowed,
      ChangesSettlement,
      FindDecision, DecisionValid, Evidenced, FactsBounded, WithMarker, IndexOf, Committed;
    assert Step(s, Resolve(op.operationId, d, expectedOperation, expectedFacts))
        == StepResolve(s, op.operationId, d, expectedOperation, expectedFacts);
  }

  /** While nothing about it is confirmed, an operation can always be decided as rejected, however it is flagged. */
  lemma OpenMayBeRejected(s: State, i: nat, d: Decision)
    requires Sound(s) && i < |s.operations| && s.operations[i].IsActive() && Evidenced(d)
    requires forall e :: e in s.operations[i].resolutions ==> e.resolutionId != d.resolutionId
    requires d.outcome == Outcome(Rejected, None, None, false, None) && !d.clearPaymentReconciliation
    ensures var op := s.operations[i];
      var next := Step(s, Resolve(op.operationId, d, op, s.facts));
      && next.Ok?
      && i < |next.value.operations|
      && next.value.operations[i] == op.(state := Rejected, reconciliationRequired := false, pendingResponseAttempts := [],
                                         resolutions := op.resolutions + [d])
  {
    DecisionVerdict(s, i, d, s.operations[i], s.facts);
    hide Step, Sound, RuledFacts, ReturnedInAll;
  }
}
