/** Recorded totals against the money a provider really moved.

    The ledger is what the provider knows: its true totals, and what it executed for each
    operation. Evidence is truthful when it claims no more than the ledger holds at the moment it
    arrives; it may be late, partial, repeated, or missing altogether. */
module Ledger {
  import opened Wrappers
  import opened Records
  import opened StateEngine
  import opened RefundTotal
  import opened Rules
  import opened Effects
  import opened System
  import opened History
  import opened Decisions
  import opened Sums
  import opened Settlements
  import opened Conservation
  import opened Accounts

  datatype Ledger = Ledger(captured: Money, refunded: Money, executed: map<string, Money>) {
    /** The money moved for one operation so far. */
    function For(r: OperationRecord): Money {
      if r.operationId in executed then executed[r.operationId] else 0.0
    }
  }

  datatype World = World(state: State, ledger: Ledger)

  datatype Event =
    | Executes(i: nat, amount: Money)
    | MovesElsewhere(capturedMore: Money, refundedMore: Money)
    | Call(command: Command)

  /** The provider acts, or somebody calls the repository. */
  function Advance(w: World, e: Event): World {
    match e
    case Executes(i, amount) =>
      if i >= |w.state.operations| then w
      else
        var r := w.state.operations[i];
        w.(ledger := Ledger(
             w.ledger.captured + (if r.operationType.Charge? then amount else 0.0),
             w.ledger.refunded + (if r.operationType.StartRefund? then amount else 0.0),
             w.ledger.executed[r.operationId := w.ledger.For(r) + amount]))
    case MovesElsewhere(captured, refunded) =>
      w.(ledger := w.ledger.(captured := w.ledger.captured + captured, refunded := w.ledger.refunded + refunded))
    case Call(c) => w.(state := After(w.state, c))
  }

  /** A claimed success states no more than the provider executed for the operation. */
  predicate ClaimBacked(ledger: Ledger, r: OperationRecord, o: Outcome) {
    o.state.Succeeded? && MovesMoney(r) ==> ClaimedAmount(r, o).GetOr(0.0) <= ledger.For(r)
  }

  /** The provider only executes what is reserved, and nothing it reports exceeds the ledger. */
  ghost predicate Truthful(w: World, e: Event) {
    match e
    case Executes(i, amount) => i < |w.state.operations| && 0.0 <= amount
    case MovesElsewhere(captured, refunded) => 0.0 <= captured && 0.0 <= refunded
    case Call(c) =>
      && ClaimedCapture(c).GetOr(0.0) <= w.ledger.captured
      && ClaimedRefund(c).GetOr(0.0) <= w.ledger.refunded
      && (CarriedOutcome(c).Some? ==>
            forall r :: r in w.state.operations && About(w.state, c, r) ==> ClaimBacked(w.ledger, r, CarriedOutcome(c).value))
  }

  function Unfold(w: World, events: seq<Event>): World {
    if events == [] then w
    else Advance(Unfold(w, events[..|events| - 1]), events[|events| - 1])
  }

  ghost predicate TruthfulRun(w: World, events: seq<Event>) {
    events == [] || (TruthfulRun(w, events[..|events| - 1])
                     && Truthful(Unfold(w, events[..|events| - 1]), events[|events| - 1]))
  }

  // ---- the invariant ----

  function Executions(operations: seq<OperationRecord>, ledger: Ledger): seq<Money> {
    seq(|operations|, i requires 0 <= i < |operations| =>
          if operations[i].operationType.StartRefund? then ledger.For(operations[i]) else 0.0)
  }

  /** What the provider executed for the refunds reserved from position `k` on. */
  ghost function ExecutedFrom(operations: seq<OperationRecord>, k: nat, ledger: Ledger): Money
    requires k <= |operations|
  {
    Sum(Executions(operations, ledger)[k..])
  }

  /** Whatever is executed for an operation comes on top of the totals it was reserved against. */
  ghost predicate RecordBacked(operations: seq<OperationRecord>, k: nat, ledger: Ledger)
    requires k < |operations|
  {
    var r := operations[k];
    && 0.0 <= ledger.For(r)
    && (MovesMoney(r) ==> Confirmed(r) <= ledger.For(r))
    && (r.operationType.Charge? ==> r.startingCaptured + ledger.For(r) <= ledger.captured)
    && (r.operationType.StartRefund? ==> r.startingRefunded + ExecutedFrom(operations, k, ledger) <= ledger.refunded)
  }

  ghost predicate OnlyReserved(operations: seq<OperationRecord>, ledger: Ledger) {
    forall id :: id in ledger.executed ==> exists r :: r in operations && r.operationId == id
  }

  ghost predicate Backed(w: World) {
    && w.state.facts.capturedFunds <= w.ledger.captured
    && w.state.facts.refundedFunds <= w.ledger.refunded
    && OnlyReserved(w.state.operations, w.ledger)
    && (forall k :: 0 <= k < |w.state.operations| ==> RecordBacked(w.state.operations, k, w.ledger))
  }

  // ---- the provider acts ----

  /** What one more execution for the operation at `i` does to the sums. */
  lemma ExecutedMore(operations: seq<OperationRecord>, i: nat, before: Ledger, after: Ledger, amount: Money)
    requires i < |operations| && DistinctIds(operations)
    requires after.executed == before.executed[operations[i].operationId := before.For(operations[i]) + amount]
    ensures forall k :: 0 <= k < |operations| ==>
      after.For(operations[k]) == before.For(operations[k]) + if k == i then amount else 0.0
    ensures forall k :: 0 <= k < |operations| ==>
      ExecutedFrom(operations, k, after)
      == ExecutedFrom(operations, k, before) + if k <= i && operations[i].operationType.StartRefund? then amount else 0.0
  {
    var xs, ys := Executions(operations, before), Executions(operations, after);
    assert forall k :: 0 <= k < |operations| && k != i ==> operations[k].operationId != operations[i].operationId;
    assert ys == xs[i := ys[i]];
    forall k | 0 <= k < |operations|
      ensures ExecutedFrom(operations, k, after)
        == ExecutedFrom(operations, k, before) + if k <= i && operations[i].operationType.StartRefund? then amount else 0.0
    {
      if k <= i {
        assert ys[k..] == xs[k..][i - k := ys[i]];
        SumUpdate(xs[k..], i - k, ys[i]);
      } else {
        assert ys[k..] == xs[k..];
      }
    }
  }

  lemma StillReserved(operations: seq<OperationRecord>, i: nat, before: Ledger, after: Ledger, amount: Money)
    requires i < |operations| && OnlyReserved(operations, before)
    requires after.executed == before.executed[operations[i].operationId := amount]
    ensures OnlyReserved(operations, after)
  {
    assert operations[i] in operations;
  }

  lemma SoundIds(s: State)
    requires Sound(s)
    ensures DistinctIds(s.operations)
  {
  }

  lemma ExecutesBacked(w: World, e: Event)
    requires e.Executes? && Truthful(w, e) && Sound(w.state) && Backed(w)
    ensures Backed(Advance(w, e))
  {
    hide Sound, ExecutedFrom, After, OnlyReserved, DistinctIds, About, ClaimBacked, ClaimedCapture, ClaimedRefund;
    var ops := w.state.operations;
    var after := Advance(w, e).ledger;
    SoundIds(w.state);
    ExecutedMore(ops, e.i, w.ledger, after, e.amount);
    StillReserved(ops, e.i, w.ledger, after, w.ledger.For(ops[e.i]) + e.amount);
    forall k | 0 <= k < |ops|
      ensures RecordBacked(ops, k, after)
    {
      assert RecordBacked(ops, k, w.ledger);
    }
  }

  lemma ElsewhereBacked(w: World, e: Event)
    requires e.MovesElsewhere? && Truthful(w, e) && Backed(w)
    ensures Backed(Advance(w, e))
  {
    var ops := w.state.operations;
    var after := Advance(w, e).ledger;
    assert Executions(ops, w.ledger) == Executions(ops, after);
    forall k | 0 <= k < |ops|
      ensures RecordBacked(ops, k, after)
    {
      assert RecordBacked(ops, k, w.ledger);
    }
  }

  // ---- the repository is called ----

  lemma SameExecutions(before: seq<OperationRecord>, after: seq<OperationRecord>, ledger: Ledger)
    requires |before| == |after| && forall n :: 0 <= n < |before| ==> SameIntent(before[n], after[n])
    ensures Executions(before, ledger) == Executions(after, ledger)
    ensures OnlyReserved(before, ledger) ==> OnlyReserved(after, ledger)
  {
    if OnlyReserved(before, ledger) {
      forall id | id in ledger.executed
        ensures exists r :: r in after && r.operationId == id
      {
        var r :| r in before && r.operationId == id;
        var n :| 0 <= n < |before| && before[n] == r;
        assert after[n] in after && after[n].operationId == id;
      }
    }
  }

  /** Records that confirm no more than was executed stay backed. */
  lemma StaysBacked(before: seq<OperationRecord>, after: seq<OperationRecord>, ledger: Ledger)
    requires |before| == |after| && forall n :: 0 <= n < |before| ==> SameIntent(before[n], after[n])
    requires forall k :: 0 <= k < |before| ==> RecordBacked(before, k, ledger)
    requires forall k :: 0 <= k < |after| && MovesMoney(after[k]) ==> Confirmed(after[k]) <= ledger.For(after[k])
    ensures forall k :: 0 <= k < |after| ==> RecordBacked(after, k, ledger)
  {
    SameExecutions(before, after, ledger);
    forall k | 0 <= k < |after|
      ensures RecordBacked(after, k, ledger)
    {
      assert RecordBacked(before, k, ledger) && SameIntent(before[k], after[k]);
    }
  }

  lemma QuietBacked(w: World, c: Command, t: State)
    requires Backed(w) && Truthful(w, Call(c)) && Behaves(w.state, c, t, Quiet)
    ensures Backed(w.(state := t))
  {
    hide Executions, ExecutedFrom;
    var ops := w.state.operations;
    SameExecutions(ops, t.operations, w.ledger);
    forall k | 0 <= k < |ops|
      ensures MovesMoney(t.operations[k]) ==> Confirmed(t.operations[k]) <= w.ledger.For(t.operations[k])
    {
      assert RecordBacked(ops, k, w.ledger) && SameIntent(ops[k], t.operations[k]);
    }
    StaysBacked(ops, t.operations, w.ledger);
  }

  lemma AppendedExecutions(operations: seq<OperationRecord>, r: OperationRecord, ledger: Ledger)
    requires ledger.For(r) == 0.0
    ensures forall k :: 0 <= k <= |operations| ==>
      ExecutedFrom(operations + [r], k, ledger) == ExecutedFrom(operations, k, ledger)
    ensures ExecutedFrom(operations, |operations|, ledger) == 0.0
  {
    var xs := Executions(operations, ledger);
    assert Executions(operations + [r], ledger) == xs + [0.0];
    forall k | 0 <= k <= |operations|
      ensures ExecutedFrom(operations + [r], k, ledger) == ExecutedFrom(operations, k, ledger)
    {
      assert (xs + [0.0])[k..] == xs[k..] + [0.0];
      SumConcat(xs[k..], [0.0]);
      SumOne(0.0);
    }
    assert xs[|operations|..] == [];
  }

  lemma AppendsNew(w: World, t: State, r: OperationRecord)
    requires Sound(t) && t.operations == w.state.operations + [r] && OnlyReserved(w.state.operations, w.ledger)
    ensures r.operationId !in w.ledger.executed
    ensures OnlyReserved(t.operations, w.ledger)
  {
    var ops := w.state.operations;
    forall x | x in ops
      ensures x.operationId != r.operationId
    {
      var n :| 0 <= n < |ops| && ops[n] == x;
      assert t.operations[n] == x && t.operations[|ops|] == r;
    }
    forall id | id in w.ledger.executed
      ensures exists x :: x in t.operations && x.operationId == id
    {
      var x :| x in ops && x.operationId == id;
      assert x in t.operations;
    }
  }

  lemma AppendsBacked(w: World, c: Command, t: State, r: OperationRecord)
    requires Sound(w.state) && Sound(t) && Backed(w) && Behaves(w.state, c, t, Appends(r))
    ensures Backed(w.(state := t))
  {
    var ops := w.state.operations;
    AppendsNew(w, t, r);
    AppendedExecutions(ops, r, w.ledger);
    hide ExecutedFrom, OnlyReserved, Sound;
    forall k | 0 <= k < |t.operations|
      ensures RecordBacked(t.operations, k, w.ledger)
    {
      if k < |ops| {
        assert RecordBacked(ops, k, w.ledger);
      }
    }
  }

  /** A settling call confirms what was confirmed before, or the amount its outcome claims. */
  lemma SettledClaim(s: State, i: nat, mid: PaymentFacts, op: OperationRecord, o: Outcome, plan: OutcomePlan, t: State)
    requires Settling(s, i, mid, op, o, plan, t) && MovesMoney(op)
    ensures || Confirmed(t.operations[i]) == Confirmed(s.operations[i])
            || (o.state.Succeeded? && ClaimedAmount(s.operations[i], o) == Some(Confirmed(t.operations[i])))
  {
    hide Sound, ConfirmedRefundTotal, FindRefund, Replaced, AnyActiveRefund, CancellationSucceeded, WithPaid,
      FactsBounded,
      FactsForward, OutcomeFrame, CompletedTarget;
  }

  lemma SettlesBacked(w: World, c: Command, t: State, kind: Kind)
    requires kind.Settles? && Backed(w) && Truthful(w, Call(c)) && Behaves(w.state, c, t, kind)
    requires 0.0 <= w.ledger.refunded
    ensures Backed(w.(state := t))
  {
    hide Sound, OutcomeEffect, ConfirmedRefundTotal, Executions, ExecutedFrom, About, WithSettled;
    var Settles(i, mid, op, o, plan) := kind;
    var ops := w.state.operations;
    SettlingMoves(w.state, i, mid, op, o, plan, t);
    SameExecutions(ops, t.operations, w.ledger);
    assert ops[i] in ops;
    assert ClaimBacked(w.ledger, ops[i], o);
    if MovesMoney(op) {
      SettledClaim(w.state, i, mid, op, o, plan, t);
    }
    forall k | 0 <= k < |ops|
      ensures MovesMoney(t.operations[k]) ==> Confirmed(t.operations[k]) <= w.ledger.For(t.operations[k])
    {
      assert RecordBacked(ops, k, w.ledger) && SameIntent(ops[k], t.operations[k]);
    }
    StaysBacked(ops, t.operations, w.ledger);
    assert RecordBacked(ops, i, w.ledger) && RecordBacked(t.operations, i, w.ledger);
    if op.operationType.StartRefund? {
      RefundTotalBacked(w.state, i, op, t, w.ledger);
    }
  }

  /** The refund total is within the true total, because nothing executed for an intent can be
      part of the total that the intent was reserved against. */
  lemma RefundTotalBacked(s: State, i: nat, op: OperationRecord, t: State, ledger: Ledger)
    requires Sound(s) && OneSettled(s.operations, i, t.operations) && SameIntent(s.operations[i], op)
    requires op.operationType.StartRefund? && 0.0 <= ledger.refunded
    requires forall k :: 0 <= k < |t.operations| ==> RecordBacked(t.operations, k, ledger)
    ensures ConfirmedRefundTotal(op, Confirmed(t.operations[i]), s.operations) <= ledger.refunded
  {
    hide ConfirmedRefundTotal, Sound;
    var amount := Confirmed(t.operations[i]);
    SameSuffixes(s, i, op, t);
    forall k | 0 <= k < |s.operations| && s.operations[k].operationType.StartRefund?
      ensures s.operations[k].startingRefunded + SettledFrom(WithSettled(s.operations, i, op, amount), k, StartRefund)
           <= ledger.refunded
    {
      assert RecordBacked(t.operations, k, ledger) && SameIntent(s.operations[k], t.operations[k]);
      SettledExecuted(t.operations, k, ledger);
    }
    RefundTotalAtMost(s, i, op, amount, ledger.refunded);
  }

  lemma SettledExecuted(operations: seq<OperationRecord>, k: nat, ledger: Ledger)
    requires k <= |operations|
    requires forall j :: 0 <= j < |operations| ==> RecordBacked(operations, j, ledger)
    ensures SettledFrom(operations, k, StartRefund) <= ExecutedFrom(operations, k, ledger)
  {
    var xs, ys := Contributions(operations, StartRefund), Executions(operations, ledger);
    forall j | 0 <= j < |operations|
      ensures xs[j] <= ys[j]
    {
      assert RecordBacked(operations, j, ledger);
    }
    SumAtMost(xs[k..], ys[k..]);
  }

  // ---- every run ----

  lemma CallBacked(w: World, c: Command)
    requires Sound(w.state) && Backed(w) && Truthful(w, Call(c)) && Step(w.state, c).Ok?
    ensures Backed(w.(state := Step(w.state, c).value))
  {
    hide Step, Backed, Truthful, Settling, SameSettlements, SameIntent, Develops;
    var t := Step(w.state, c).value;
    var kind := StepKind(w.state, c);
    StepDevelops(w.state, c);
    NonNegativeTotals(w);
    match kind
    case Quiet => QuietBacked(w, c, t);
    case Appends(r) => AppendsBacked(w, c, t, r);
    case Settles(i, mid, op, o, plan) => SettlesBacked(w, c, t, kind);
  }

  lemma NonNegativeTotals(w: World)
    requires Sound(w.state) && Backed(w)
    ensures 0.0 <= w.ledger.refunded
  {
  }

  lemma AdvanceBacked(w: World, e: Event)
    requires Sound(w.state) && Backed(w) && Truthful(w, e)
    ensures Sound(Advance(w, e).state) && Backed(Advance(w, e))
  {
    hide Sound, Backed, Truthful, Step;
    match e
    case Executes(i, amount) => ExecutesBacked(w, e);
    case MovesElsewhere(captured, refunded) => ElsewhereBacked(w, e);
    case Call(c) =>
      AfterDevelops(w.state, c);
      if Step(w.state, c).Ok? {
        CallBacked(w, c);
      }
  }

  /** A payment and its ledger before any intent was reserved. */
  ghost predicate Opening(w: World) {
    && Initial(w.state)
    && w.ledger.executed == map[]
    && w.state.facts.capturedFunds <= w.ledger.captured
    && w.state.facts.refundedFunds <= w.ledger.refunded
  }

  /** With truthful evidence the recorded totals always lie between what is known to have settled
      and what really moved, whatever the provider executes and whoever calls, in any order. */
  lemma {:induction false} RunBacked(w: World, events: seq<Event>)
    requires Opening(w) && TruthfulRun(w, events)
    ensures Sound(Unfold(w, events).state) && Backed(Unfold(w, events))
    ensures Funded(Unfold(w, events).state, BaseOf(w.state.facts))
  {
    if events == [] {
    } else {
      hide Sound, Backed, Funded, Truthful, Step;
      var rest := events[..|events| - 1];
      var last := events[|events| - 1];
      RunBacked(w, rest);
      AdvanceBacked(Unfold(w, rest), last);
      if last.Call? && Step(Unfold(w, rest).state, last.command).Ok? {
        StepFunded(Unfold(w, rest).state, last.command, BaseOf(w.state.facts));
      }
    }
  }

  lemma TotalsBetweenSettledAndTrue(w: World, events: seq<Event>)
    requires Opening(w) && TruthfulRun(w, events)
    ensures var v := Unfold(w, events);
      && w.state.facts.capturedFunds + Settled(v.state.operations, Charge) <= v.state.facts.capturedFunds <= v.ledger.captured
      && w.state.facts.refundedFunds + Settled(v.state.operations, StartRefund) <= v.state.facts.refundedFunds <= v.ledger.refunded
  {
    RunBacked(w, events);
  }
}
