/** Captured and refunded money against the settled operations, over whole runs. */
module Accounts {
  import opened Wrappers
  import opened Records
  import opened RefundTotal
  import opened Rules
  import opened Effects
  import opened System
  import opened History
  import opened Decisions
  import opened Sums
  import opened Settlements
  import opened Conservation

  /** The money a payment started with. */
  datatype Base = Base(captured: Money, refunded: Money)

  function BaseOf(f: PaymentFacts): Base {
    Base(f.capturedFunds, f.refundedFunds)
  }

  // ---- no settled money is lost ----

  /** The totals cover the initial money and everything that settled, and every charge was
      reserved against a total that covers the charges settled before it. */
  ghost predicate Funded(s: State, b: Base) {
    && b.captured + Settled(s.operations, Charge) <= s.facts.capturedFunds
    && b.refunded + Settled(s.operations, StartRefund) <= s.facts.refundedFunds
    && (forall k :: 0 <= k < |s.operations| ==> ReservedAbove(s.operations, k, b))
  }

  ghost predicate ReservedAbove(operations: seq<OperationRecord>, k: nat, b: Base)
    requires k < |operations|
  {
    && b.refunded <= operations[k].startingRefunded
    && (operations[k].operationType.Charge? ==>
          b.captured + SettledBefore(operations, k, Charge) <= operations[k].startingCaptured)
  }

  // ---- and none is counted twice ----

  /** With no aggregate claims, the totals are exactly the initial money and what settled. */
  ghost predicate Exact(s: State, b: Base) {
    && s.facts.capturedFunds == b.captured + Settled(s.operations, Charge)
    && s.facts.refundedFunds == b.refunded + Settled(s.operations, StartRefund)
    && (forall k :: 0 <= k < |s.operations| ==> ReservedExactly(s.operations, k, b))
  }

  ghost predicate ReservedExactly(operations: seq<OperationRecord>, k: nat, b: Base)
    requires k < |operations|
  {
    && b.refunded <= operations[k].startingRefunded
    && (operations[k].operationType.Charge? ==>
          operations[k].startingCaptured == b.captured + SettledBefore(operations, k, Charge))
    && (operations[k].operationType.StartRefund? ==>
          operations[k].startingRefunded <= b.refunded + SettledBefore(operations, k, StartRefund))
  }

  // ---- shared steps ----

  lemma SameSettled(before: seq<OperationRecord>, after: seq<OperationRecord>, t: OperationType)
    requires SameSettlements(before, after)
    ensures Contributions(before, t) == Contributions(after, t)
  {
  }

  /** The planner's history with `op` settled has the contributions of the committed history. */
  lemma SettledHistory(s: State, i: nat, op: OperationRecord, t: State)
    requires OneSettled(s.operations, i, t.operations) && SameIntent(s.operations[i], op)
    requires op.operationType.StartRefund?
    ensures Contributions(WithSettled(s.operations, i, op, Confirmed(t.operations[i])), StartRefund)
         == Contributions(t.operations, StartRefund)
  {
    var after := WithSettled(s.operations, i, op, Confirmed(t.operations[i]));
    forall n | 0 <= n < |s.operations|
      ensures Contribution(after[n], StartRefund) == Contribution(t.operations[n], StartRefund)
    {
      assert SameIntent(s.operations[n], t.operations[n]);
    }
  }

  lemma {:induction false} FirstRefund(operations: seq<OperationRecord>, i: nat) returns (k: nat)
    requires i < |operations| && operations[i].operationType.StartRefund?
    ensures k <= i && operations[k].operationType.StartRefund?
    ensures SettledFrom(operations, k, StartRefund) == Settled(operations, StartRefund)
  {
    k := 0;
    while !operations[k].operationType.StartRefund?
      invariant k <= i
      decreases i - k
      invariant forall n :: 0 <= n < k ==> !operations[n].operationType.StartRefund?
    {
      k := k + 1;
    }
    SettledSplits(operations, k, StartRefund);
    SumZero(Contributions(operations, StartRefund)[..k]);
  }

  /** A settled refund raises the total at least to the initial money and all that settled. */
  lemma RefundCovers(s: State, i: nat, op: OperationRecord, t: State, b: Base)
    requires Sound(s) && OneSettled(s.operations, i, t.operations) && SameIntent(s.operations[i], op)
    requires op.operationType.StartRefund?
    requires forall k :: 0 <= k < |s.operations| ==> b.refunded <= s.operations[k].startingRefunded
    ensures b.refunded + Settled(t.operations, StartRefund)
         <= ConfirmedRefundTotal(op, Confirmed(t.operations[i]), s.operations)
  {
    hide ConfirmedRefundTotal, Sound;
    var amount := Confirmed(t.operations[i]);
    var k := FirstRefund(t.operations, i);
    SettledHistory(s, i, op, t);
    RefundTotalAtLeast(s, i, op, amount, k);
  }

  lemma FundedSettles(s: State, i: nat, mid: PaymentFacts, op: OperationRecord, o: Outcome, plan: OutcomePlan,
                      t: State, b: Base)
    requires Settling(s, i, mid, op, o, plan, t) && Funded(s, b)
    ensures Funded(t, b)
  {
    hide Sound, OutcomeEffect, ConfirmedRefundTotal, Settled, SettledBefore;
    SettlingMoves(s, i, mid, op, o, plan, t);
    SettledChange(s.operations, i, t.operations, Charge);
    SettledChange(s.operations, i, t.operations, StartRefund);
    ChargePrefixes(s, i, t);
    assert ReservedAbove(s.operations, i, b);
    forall k | 0 <= k < |s.operations|
      ensures b.refunded <= s.operations[k].startingRefunded
    {
      assert ReservedAbove(s.operations, k, b);
    }
    if op.operationType.StartRefund? {
      RefundCovers(s, i, op, t, b);
    } else if op.operationType.Charge? && i == |s.operations| - 1 {
      LastSettled(s, i, t);
    }
    forall k | 0 <= k < |t.operations|
      ensures ReservedAbove(t.operations, k, b)
    {
      assert ReservedAbove(s.operations, k, b) && SameIntent(s.operations[k], t.operations[k]);
    }
  }

  /** For the last charge, everything settled was settled before it or by it. */
  lemma LastSettled(s: State, i: nat, t: State)
    requires OneSettled(s.operations, i, t.operations)
    requires i == |s.operations| - 1 && s.operations[i].operationType.Charge?
    ensures Settled(t.operations, Charge) == SettledBefore(s.operations, i, Charge) + Confirmed(t.operations[i])
    ensures Settled(s.operations, Charge) == SettledBefore(s.operations, i, Charge) + Confirmed(s.operations[i])
  {
    SettledChange(s.operations, i, t.operations, Charge);
    SettledSplits(t.operations, i, Charge);
    SettledSplits(s.operations, i, Charge);
    assert Contributions(t.operations, Charge)[i..] == [Confirmed(t.operations[i])];
    assert Contributions(s.operations, Charge)[i..] == [Confirmed(s.operations[i])];
    SumOne(Confirmed(t.operations[i]));
    SumOne(Confirmed(s.operations[i]));
  }

  lemma SumOne(x: Money)
    ensures Sum([x]) == x
  {
    assert [x][1..] == [];
  }

  /** What was settled before any charge never changes once the charge is reserved. */
  lemma ChargePrefixes(s: State, i: nat, t: State)
    requires OneSettled(s.operations, i, t.operations)
    requires Confirmed(s.operations[i]) != Confirmed(t.operations[i]) && s.operations[i].operationType.Charge?
      ==> i == |s.operations| - 1
    ensures forall k :: 0 <= k < |s.operations| ==> SettledBefore(s.operations, k, Charge) == SettledBefore(t.operations, k, Charge)
  {
    hide SettledBefore;
    SettledChange(s.operations, i, t.operations, Charge);
    if Confirmed(s.operations[i]) == Confirmed(t.operations[i]) {
      SamePrefixes(s, t);
    }
  }

  lemma FundedQuiet(s: State, t: State, b: Base)
    requires SameSettlements(s.operations, t.operations) && Funded(s, b)
    requires s.facts.capturedFunds <= t.facts.capturedFunds && s.facts.refundedFunds <= t.facts.refundedFunds
    ensures Funded(t, b)
  {
    hide Settled;
    SameSettled(s.operations, t.operations, Charge);
    SettledUnchanged(s, t);
    forall k | 0 <= k < |t.operations|
      ensures ReservedAbove(t.operations, k, b)
    {
      assert ReservedAbove(s.operations, k, b) && SameIntent(s.operations[k], t.operations[k]);
    }
  }

  lemma SettledUnchanged(s: State, t: State)
    requires SameSettlements(s.operations, t.operations)
    ensures Settled(s.operations, Charge) == Settled(t.operations, Charge)
    ensures Settled(s.operations, StartRefund) == Settled(t.operations, StartRefund)
  {
    SameSettled(s.operations, t.operations, Charge);
    SameSettled(s.operations, t.operations, StartRefund);
  }

  lemma FundedAppends(s: State, c: Command, t: State, r: OperationRecord, b: Base)
    requires Behaves(s, c, t, Appends(r)) && Funded(s, b)
    requires 0.0 <= Settled(s.operations, StartRefund)
    ensures Funded(t, b)
  {
    hide Settled, SettledBefore;
    SettledAppends(s.operations, r, Charge);
    SettledAppends(s.operations, r, StartRefund);
    forall k | 0 <= k < |t.operations|
      ensures ReservedAbove(t.operations, k, b)
    {
      if k < |s.operations| {
        assert ReservedAbove(s.operations, k, b);
      }
    }
  }

  lemma SettledNonNegative(s: State, t: OperationType)
    requires Sound(s)
    ensures 0.0 <= Settled(s.operations, t)
  {
    assert forall n :: 0 <= n < |s.operations| ==> RecordSound(s.facts, s.operations[n]);
    SumNonNegative(Contributions(s.operations, t));
  }

  lemma PrefixCovers(s: State, i: nat, t: OperationType)
    requires Sound(s) && i < |s.operations|
    ensures SettledBefore(s.operations, i, t) + Contribution(s.operations[i], t) <= Settled(s.operations, t)
  {
    var xs := Contributions(s.operations, t);
    assert forall n :: 0 <= n < |s.operations| ==> RecordSound(s.facts, s.operations[n]);
    SumSplit(xs, i);
    SumNonNegative(xs[i..][1..]);
  }

  lemma StepFunded(s: State, c: Command, b: Base)
    requires Sound(s) && Funded(s, b) && Step(s, c).Ok?
    ensures Funded(Step(s, c).value, b)
  {
    hide Step, Sound, Funded, Settling, SameSettlements, SameIntent;
    var t := Step(s, c).value;
    var kind := StepKind(s, c);
    SettledNonNegative(s, StartRefund);
    match kind
    case Quiet => FundedQuiet(s, t, b);
    case Appends(r) => FundedAppends(s, c, t, r, b);
    case Settles(i, mid, op, o, plan) => FundedSettles(s, i, mid, op, o, plan, t, b);
  }

  /** Nothing settled is ever lost: in every run, whatever is called in whatever order, the totals
      cover the initial money and the settled amounts of all succeeded charges and refunds. */
  lemma {:induction false} RunFunded(s: State, commands: seq<Command>)
    requires Initial(s)
    ensures Funded(Run(s, commands), BaseOf(s.facts))
  {
    if commands == [] {
    } else {
      hide Sound, Funded, Develops;
      var rest := commands[..|commands| - 1];
      var last := commands[|commands| - 1];
      RunFunded(s, rest);
      InitialSound(s);
      RunDevelops(s, rest);
      if Step(Run(s, rest), last).Ok? {
        StepFunded(Run(s, rest), last, BaseOf(s.facts));
      }
    }
  }

  // ---- exactness ----

  /** The refund total never exceeds the initial money and all that settled. */
  lemma RefundWithin(s: State, i: nat, op: OperationRecord, t: State, b: Base)
    requires Sound(s) && OneSettled(s.operations, i, t.operations) && SameIntent(s.operations[i], op)
    requires op.operationType.StartRefund? && Exact(s, b) && 0.0 <= b.refunded
    ensures ConfirmedRefundTotal(op, Confirmed(t.operations[i]), s.operations)
         <= b.refunded + Settled(t.operations, StartRefund)
  {
    hide ConfirmedRefundTotal, Settled, SettledBefore, SettledFrom;
    var amount := Confirmed(t.operations[i]);
    var limit := b.refunded + Settled(t.operations, StartRefund);
    SettledHistory(s, i, op, t);
    SettledNonNegative(s, StartRefund);
    SettledChange(s.operations, i, t.operations, StartRefund);
    SameSuffixes(s, i, op, t);
    forall k | 0 <= k < |s.operations| && s.operations[k].operationType.StartRefund?
      ensures s.operations[k].startingRefunded + SettledFrom(WithSettled(s.operations, i, op, amount), k, StartRefund) <= limit
    {
      assert ReservedExactly(s.operations, k, b);
      SettledSplits(t.operations, k, StartRefund);
    }
    RefundTotalAtMost(s, i, op, amount, limit);
  }

  lemma SameSuffixes(s: State, i: nat, op: OperationRecord, t: State)
    requires OneSettled(s.operations, i, t.operations) && SameIntent(s.operations[i], op)
    requires op.operationType.StartRefund?
    ensures forall k :: 0 <= k < |s.operations| ==>
      SettledFrom(WithSettled(s.operations, i, op, Confirmed(t.operations[i])), k, StartRefund)
      == SettledFrom(t.operations, k, StartRefund)
  {
    SettledHistory(s, i, op, t);
  }

  lemma ExactSettles(s: State, i: nat, mid: PaymentFacts, op: OperationRecord, o: Outcome, plan: OutcomePlan,
                     t: State, b: Base)
    requires Settling(s, i, mid, op, o, plan, t) && Exact(s, b) && 0.0 <= b.refunded
    requires mid.capturedFunds == s.facts.capturedFunds && mid.refundedFunds == s.facts.refundedFunds
    ensures Exact(t, b)
  {
    hide Sound, OutcomeEffect, ConfirmedRefundTotal, Settled, SettledBefore;
    SettlingMoves(s, i, mid, op, o, plan, t);
    SettledChange(s.operations, i, t.operations, Charge);
    SettledChange(s.operations, i, t.operations, StartRefund);
    assert ReservedExactly(s.operations, i, b);
    PrefixCovers(s, i, Charge);
    forall k | 0 <= k < |s.operations|
      ensures b.refunded <= s.operations[k].startingRefunded
    {
      assert ReservedExactly(s.operations, k, b);
    }
    if op.operationType.StartRefund? {
      RefundCovers(s, i, op, t, b);
      RefundWithin(s, i, op, t, b);
    } else if op.operationType.Charge? && i == |s.operations| - 1 {
      LastSettled(s, i, t);
    }
    ExactPositions(s, i, t, b);
  }

  lemma ExactPositions(s: State, i: nat, t: State, b: Base)
    requires OneSettled(s.operations, i, t.operations) && Exact(s, b)
    requires Confirmed(s.operations[i]) != Confirmed(t.operations[i]) && s.operations[i].operationType.Charge?
      ==> i == |s.operations| - 1
    ensures forall k :: 0 <= k < |t.operations| ==> ReservedExactly(t.operations, k, b)
  {
    hide Settled, SettledBefore;
    SettledChange(s.operations, i, t.operations, StartRefund);
    ChargePrefixes(s, i, t);
    forall k | 0 <= k < |t.operations|
      ensures ReservedExactly(t.operations, k, b)
    {
      assert ReservedExactly(s.operations, k, b) && SameIntent(s.operations[k], t.operations[k]);
    }
  }

  lemma SamePrefixes(s: State, t: State)
    requires SameSettlements(s.operations, t.operations)
    ensures forall k, y: OperationType :: 0 <= k <= |s.operations| ==>
      SettledBefore(s.operations, k, y) == SettledBefore(t.operations, k, y)
  {
    forall k, y: OperationType | 0 <= k <= |s.operations|
      ensures SettledBefore(s.operations, k, y) == SettledBefore(t.operations, k, y)
    {
      SameSettled(s.operations, t.operations, y);
    }
  }

  lemma ExactQuiet(s: State, t: State, b: Base)
    requires SameSettlements(s.operations, t.operations) && Exact(s, b)
    requires s.facts.capturedFunds == t.facts.capturedFunds && s.facts.refundedFunds == t.facts.refundedFunds
    ensures Exact(t, b)
  {
    hide Settled, SettledBefore;
    SettledUnchanged(s, t);
    SamePrefixes(s, t);
    forall k | 0 <= k < |t.operations|
      ensures ReservedExactly(t.operations, k, b)
    {
      assert ReservedExactly(s.operations, k, b) && SameIntent(s.operations[k], t.operations[k]);
    }
  }

  lemma ExactAppends(s: State, c: Command, t: State, r: OperationRecord, b: Base)
    requires Behaves(s, c, t, Appends(r)) && Exact(s, b)
    requires 0.0 <= Settled(s.operations, StartRefund)
    ensures Exact(t, b)
  {
    hide Settled, SettledBefore;
    SettledAppends(s.operations, r, Charge);
    SettledAppends(s.operations, r, StartRefund);
    forall k | 0 <= k < |t.operations|
      ensures ReservedExactly(t.operations, k, b)
    {
      if k < |s.operations| {
        assert ReservedExactly(s.operations, k, b);
      }
    }
  }

  /** A call that claims no aggregate total of captured or refunded money. */
  predicate ClaimsNothing(c: Command) {
    ClaimedCapture(c).None? && ClaimedRefund(c).None?
  }

  lemma StepExact(s: State, c: Command, b: Base)
    requires Sound(s) && Exact(s, b) && 0.0 <= b.refunded && ClaimsNothing(c) && Step(s, c).Ok?
    ensures Exact(Step(s, c).value, b)
  {
    hide Step, Sound, Exact, Settling, SameSettlements, SameIntent;
    var t := Step(s, c).value;
    var kind := StepKind(s, c);
    SettledNonNegative(s, StartRefund);
    match kind
    case Quiet => ExactQuiet(s, t, b);
    case Appends(r) => ExactAppends(s, c, t, r, b);
    case Settles(i, mid, op, o, plan) => ExactSettles(s, i, mid, op, o, plan, t, b);
  }

  /** In a run without aggregate claims, captured and refunded equal exactly the initial money
      plus the settled amounts of the succeeded charges and refunds, whatever duplicates, retries,
      late settlements of cancelled refunds or upward corrections occur. */
  lemma {:induction false} RunExact(s: State, commands: seq<Command>)
    requires Initial(s)
    requires forall k :: 0 <= k < |commands| ==> ClaimsNothing(commands[k])
    ensures var t := Run(s, commands);
      && t.facts.capturedFunds == s.facts.capturedFunds + Settled(t.operations, Charge)
      && t.facts.refundedFunds == s.facts.refundedFunds + Settled(t.operations, StartRefund)
    ensures Exact(Run(s, commands), BaseOf(s.facts))
  {
    if commands == [] {
    } else {
      var rest := commands[..|commands| - 1];
      var last := commands[|commands| - 1];
      RunExact(s, rest);
      InitialSound(s);
      RunDevelops(s, rest);
      hide Sound, Develops, Step;
      if Step(Run(s, rest), last).Ok? {
        StepExact(Run(s, rest), last, BaseOf(s.facts));
      }
    }
  }
}
