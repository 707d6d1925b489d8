/** The confirmed money of a history, by position, and the refund total in those terms. */
module Settlements {
  import opened Wrappers
  import opened Records
  import opened RefundTotal
  import opened Rules
  import opened Effects
  import opened History
  import opened System
  import opened Sums

  /** What one operation of type `t` is known to have moved. */
  function Contribution(r: OperationRecord, t: OperationType): Money {
    if r.operationType == t then Confirmed(r) else 0.0
  }

  function Contributions(operations: seq<OperationRecord>, t: OperationType): seq<Money> {
    seq(|operations|, i requires 0 <= i < |operations| => Contribution(operations[i], t))
  }

  /** The sum of the settled amounts of all succeeded operations of type `t`. */
  ghost function Settled(operations: seq<OperationRecord>, t: OperationType): Money {
    Sum(Contributions(operations, t))
  }

  ghost function SettledBefore(operations: seq<OperationRecord>, k: nat, t: OperationType): Money
    requires k <= |operations|
  {
    Sum(Contributions(operations, t)[..k])
  }

  ghost function SettledFrom(operations: seq<OperationRecord>, k: nat, t: OperationType): Money
    requires k <= |operations|
  {
    Sum(Contributions(operations, t)[k..])
  }

  lemma SettledSplits(operations: seq<OperationRecord>, k: nat, t: OperationType)
    requires k <= |operations|
    ensures Settled(operations, t) == SettledBefore(operations, k, t) + SettledFrom(operations, k, t)
  {
    SumSplit(Contributions(operations, t), k);
  }

  lemma SettledAppends(operations: seq<OperationRecord>, r: OperationRecord, t: OperationType)
    ensures Settled(operations + [r], t) == Settled(operations, t) + Contribution(r, t)
    ensures SettledBefore(operations + [r], |operations|, t) == Settled(operations, t)
    ensures forall k :: 0 <= k <= |operations| ==> SettledBefore(operations + [r], k, t) == SettledBefore(operations, k, t)
  {
    var xs := Contributions(operations, t);
    assert Contributions(operations + [r], t) == xs + [Contribution(r, t)];
    SumConcat(xs, [Contribution(r, t)]);
    forall k | 0 <= k <= |operations|
      ensures SettledBefore(operations + [r], k, t) == SettledBefore(operations, k, t)
    {
      assert (xs + [Contribution(r, t)])[..k] == xs[..k];
    }
    assert xs[..|operations|] == xs;
  }

  /** One operation changed its contribution; the others kept theirs. */
  ghost predicate OneSettled(before: seq<OperationRecord>, i: nat, after: seq<OperationRecord>) {
    && |before| == |after|
    && i < |before|
    && (forall n :: 0 <= n < |before| ==> SameIntent(before[n], after[n]))
    && (forall n :: 0 <= n < |before| && n != i ==> Confirmed(before[n]) == Confirmed(after[n]))
    && 0.0 <= Confirmed(before[i]) <= Confirmed(after[i])
  }

  lemma SettledChange(before: seq<OperationRecord>, i: nat, after: seq<OperationRecord>, t: OperationType)
    requires OneSettled(before, i, after)
    ensures Settled(after, t) == Settled(before, t) + Contribution(after[i], t) - Contribution(before[i], t)
    ensures forall k :: 0 <= k <= |before| ==>
      && SettledBefore(before, k, t) <= SettledBefore(after, k, t)
      && (k <= i || before[i].operationType != t ==> SettledBefore(before, k, t) == SettledBefore(after, k, t))
  {
    var xs, ys := Contributions(before, t), Contributions(after, t);
    assert ys == xs[i := Contribution(after[i], t)];
    SumUpdate(xs, i, Contribution(after[i], t));
    forall k | 0 <= k <= |before|
      ensures SettledBefore(before, k, t) <= SettledBefore(after, k, t)
      ensures k <= i || before[i].operationType != t ==> SettledBefore(before, k, t) == SettledBefore(after, k, t)
    {
      SumAtMost(xs[..k], ys[..k]);
      if k <= i || before[i].operationType != t {
        assert xs[..k] == ys[..k];
      }
    }
  }

  // ---- the refund total by position ----

  /** The confirmed refunds reserved since `n`, leaving out the operation `id`. */
  function OthersSince(operations: seq<OperationRecord>, id: string, n: int): seq<Money> {
    seq(|operations|, i requires 0 <= i < |operations| =>
          if operations[i].operationType.StartRefund? && operations[i].operationId != id
             && operations[i].reservationSequence >= n
          then Confirmed(operations[i]) else 0.0)
  }

  lemma {:induction false} OtherRefundsSince(op: OperationRecord, operations: seq<OperationRecord>, n: int)
    requires forall r :: r in operations ==> r.paymentId == op.paymentId
    ensures ConfirmedSince(OtherRefunds(op, operations), n) == Sum(OthersSince(operations, op.operationId, n))
  {
    if operations == [] {
    } else {
      OtherRefundsSince(op, operations[1..], n);
      var rest := OtherRefunds(op, operations[1..]);
      assert OthersSince(operations, op.operationId, n)[1..] == OthersSince(operations[1..], op.operationId, n);
      assert ([operations[0]] + rest)[1..] == rest;
      assert [] + rest == rest;
    }
  }

  /** The history with `op` succeeded in its place. */
  function WithSettled(operations: seq<OperationRecord>, i: nat, op: OperationRecord,
                       amount: Money): seq<OperationRecord>
    requires i < |operations|
  {
    operations[i := op.(state := Succeeded, settledAmount := Some(amount))]
  }

  /** `op` is the refund `operations[i]`, perhaps reopened, in a sound history. */
  ghost predicate RefundAt(s: State, i: nat, op: OperationRecord) {
    && Sound(s)
    && i < |s.operations|
    && SameIntent(s.operations[i], op)
    && op.operationType.StartRefund?
  }

  /** The confirmed refunds since `n`, with `op` counted in its place. */
  function AllSince(operations: seq<OperationRecord>, i: nat, op: OperationRecord, amount: Money, n: int): seq<Money>
    requires i < |operations|
  {
    OthersSince(operations, op.operationId, n)[i := if op.reservationSequence >= n then amount else 0.0]
  }

  lemma SinceStarts(s: State, i: nat, op: OperationRecord, amount: Money, k: nat)
    requires RefundAt(s, i, op) && k < |s.operations|
    ensures var all := AllSince(s.operations, i, op, amount, s.operations[k].reservationSequence);
      && (forall j :: 0 <= j < k ==> all[j] == 0.0)
      && all[k..] == Contributions(WithSettled(s.operations, i, op, amount), StartRefund)[k..]
  {
    var n := s.operations[k].reservationSequence;
    var all := AllSince(s.operations, i, op, amount, n);
    var after := WithSettled(s.operations, i, op, amount);
    assert forall j :: 0 <= j < k ==> s.operations[j].reservationSequence < n;
    assert forall j :: k < j < |s.operations| ==> n < s.operations[j].reservationSequence;
    forall j | k <= j < |s.operations|
      ensures all[j] == Contribution(after[j], StartRefund)
    {
      assert j != i ==> s.operations[j].operationId != op.operationId;
    }
  }

  lemma SinceBySuffix(s: State, i: nat, op: OperationRecord, amount: Money, k: nat)
    requires RefundAt(s, i, op) && k < |s.operations|
    ensures ConfirmedSince(RefundHistory(op, amount, s.operations), s.operations[k].reservationSequence)
         == SettledFrom(WithSettled(s.operations, i, op, amount), k, StartRefund)
  {
    var n := s.operations[k].reservationSequence;
    SinceStarts(s, i, op, amount, k);
    HistorySince(s, i, op, amount, n);
    hide Sound, Sum, ConfirmedSince, RefundHistory, AllSince;
    var all := AllSince(s.operations, i, op, amount, n);
    SumSplit(all, k);
    SumZero(all[..k]);
  }

  lemma HistorySince(s: State, i: nat, op: OperationRecord, amount: Money, n: int)
    requires RefundAt(s, i, op)
    ensures ConfirmedSince(RefundHistory(op, amount, s.operations), n) == Sum(AllSince(s.operations, i, op, amount, n))
  {
    var last := op.(state := Succeeded, settledAmount := Some(amount));
    assert forall j :: 0 <= j < |s.operations| ==> RecordSound(s.facts, s.operations[j]);
    OtherRefundsSince(op, s.operations, n);
    SinceSplits(OtherRefunds(op, s.operations), [last], n);
    SumUpdate(OthersSince(s.operations, op.operationId, n), i, if last.reservationSequence >= n then amount else 0.0);
  }

  lemma {:induction false} InOthers(op: OperationRecord, operations: seq<OperationRecord>)
    ensures forall r :: r in OtherRefunds(op, operations) ==>
      r in operations && r.operationType.StartRefund? && r.operationId != op.operationId
    ensures forall r :: r in operations && r.paymentId == op.paymentId && r.operationType.StartRefund? ==>
      r.operationId == op.operationId || r in OtherRefunds(op, operations)
  {
    if operations == [] {
    } else {
      InOthers(op, operations[1..]);
      assert forall r :: r in operations ==> r == operations[0] || r in operations[1..];
    }
  }

  /** Each entry of a refund history sits at some position of the operation history. */
  lemma HistoryPosition(s: State, i: nat, op: OperationRecord, amount: Money, r: OperationRecord) returns (k: nat)
    requires RefundAt(s, i, op) && r in RefundHistory(op, amount, s.operations)
    ensures k < |s.operations| && s.operations[k].operationType.StartRefund?
    ensures r == WithSettled(s.operations, i, op, amount)[k]
    ensures r.reservationSequence == s.operations[k].reservationSequence
    ensures r.startingRefunded == s.operations[k].startingRefunded
  {
    InOthers(op, s.operations);
    if r in OtherRefunds(op, s.operations) {
      k :| 0 <= k < |s.operations| && s.operations[k] == r;
    } else {
      k := i;
    }
  }

  lemma PositionInHistory(s: State, i: nat, op: OperationRecord, amount: Money, k: nat)
    requires RefundAt(s, i, op) && k < |s.operations| && s.operations[k].operationType.StartRefund?
    ensures WithSettled(s.operations, i, op, amount)[k] in RefundHistory(op, amount, s.operations)
  {
    InOthers(op, s.operations);
    assert s.operations[k] in s.operations;
    if k != i {
      assert s.operations[k].operationId != s.operations[i].operationId;
    }
  }

  lemma HistoryDistinct(s: State, i: nat, op: OperationRecord, amount: Money)
    requires RefundAt(s, i, op)
    ensures DistinctSequences(RefundHistory(op, amount, s.operations))
  {
    OthersOrdered(op, s.operations);
    InOthers(op, s.operations);
    var others := OtherRefunds(op, s.operations);
    forall k | 0 <= k < |others|
      ensures others[k].reservationSequence != op.reservationSequence
    {
      assert others[k] in others;
      var n :| 0 <= n < |s.operations| && s.operations[n] == others[k];
    }
  }

  lemma {:induction false} OthersOrdered(op: OperationRecord, operations: seq<OperationRecord>)
    requires Ordered(operations)
    ensures Ordered(OtherRefunds(op, operations))
  {
    if operations == [] {
    } else {
      OthersOrdered(op, operations[1..]);
      InOthers(op, operations[1..]);
      var rest := OtherRefunds(op, operations[1..]);
      forall k | 0 <= k < |rest|
        ensures operations[0].reservationSequence < rest[k].reservationSequence
      {
        assert rest[k] in rest;
        var n :| 0 <= n < |operations[1..]| && operations[1..][n] == rest[k];
        assert operations[n + 1] == rest[k];
      }
    }
  }

  /** The refund total stays within any limit that every reservation of the history respects. */
  lemma RefundTotalAtMost(s: State, i: nat, op: OperationRecord, amount: Money, limit: Money)
    requires RefundAt(s, i, op) && 0.0 <= amount && 0.0 <= limit
    requires forall k :: 0 <= k < |s.operations| && s.operations[k].operationType.StartRefund? ==>
      s.operations[k].startingRefunded + SettledFrom(WithSettled(s.operations, i, op, amount), k, StartRefund) <= limit
    ensures ConfirmedRefundTotal(op, amount, s.operations) <= limit
  {
    hide GreatestBound, SettledFrom;
    var rs := RefundHistory(op, amount, s.operations);
    forall r | r in rs
      ensures LowerBound(rs, r) <= limit
      ensures 0.0 <= Confirmed(r) && 0.0 <= r.startingRefunded
    {
      var k := HistoryPosition(s, i, op, amount, r);
      SinceBySuffix(s, i, op, amount, k);
      assert RecordSound(s.facts, s.operations[k]);
    }
    GreatestBoundAtMost(rs, limit);
  }

  /** The refund total reaches the bound of every reservation of the history. */
  lemma RefundTotalAtLeast(s: State, i: nat, op: OperationRecord, amount: Money, k: nat)
    requires RefundAt(s, i, op) && k < |s.operations| && s.operations[k].operationType.StartRefund?
    ensures s.operations[k].startingRefunded + SettledFrom(WithSettled(s.operations, i, op, amount), k, StartRefund)
         <= ConfirmedRefundTotal(op, amount, s.operations)
  {
    hide GreatestBound, SettledFrom, Sound;
    var rs := RefundHistory(op, amount, s.operations);
    HistoryDistinct(s, i, op, amount);
    GreatestBoundAtLeast(rs);
    PositionInHistory(s, i, op, amount, k);
    SinceBySuffix(s, i, op, amount, k);
    assert LowerBound(rs, WithSettled(s.operations, i, op, amount)[k]) <= GreatestBound(rs);
  }
}
