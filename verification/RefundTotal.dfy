/** The cumulative lower bound that a set of confirmed refunds establishes.

    Each refund was reserved against a starting total. Whatever was reserved at or after that
    point cannot be part of that total, so the starting total plus the confirmed amounts
    reserved at or after it is a lower bound on the money returned. */
module RefundTotal {
  import opened Wrappers
  import opened Records

  /** The money a retained refund is known to have returned. */
  function Confirmed(r: OperationRecord): Money {
    if r.state.Succeeded? && r.settledAmount.Some? then r.settledAmount.value else 0.0
  }

  /** What the refunds reserved at or after sequence `n` are known to have returned. */
  ghost function ConfirmedSince(rs: seq<OperationRecord>, n: int): Money {
    if rs == [] then 0.0
    else (if rs[0].reservationSequence >= n then Confirmed(rs[0]) else 0.0) + ConfirmedSince(rs[1..], n)
  }

  /** The lower bound that `r` contributes within the history `rs`. */
  ghost function LowerBound(rs: seq<OperationRecord>, r: OperationRecord): Money {
    r.startingRefunded + ConfirmedSince(rs, r.reservationSequence)
  }

  ghost predicate NonNegative(rs: seq<OperationRecord>) {
    forall r :: r in rs ==> 0.0 <= Confirmed(r) && 0.0 <= r.startingRefunded
  }

  ghost predicate Descending(rs: seq<OperationRecord>) {
    forall i, j :: 0 <= i < j < |rs| ==> rs[i].reservationSequence >= rs[j].reservationSequence
  }

  ghost predicate DistinctSequences(rs: seq<OperationRecord>) {
    forall i, j :: 0 <= i < j < |rs| ==> rs[i].reservationSequence != rs[j].reservationSequence
  }

  // ---- the stable descending sort ----

  function Insert(r: OperationRecord, rs: seq<OperationRecord>): seq<OperationRecord> {
    if rs == [] || r.reservationSequence >= rs[0].reservationSequence then [r] + rs
    else [rs[0]] + Insert(r, rs[1..])
  }

  /** Latest reservation first; records with equal sequences keep their order. */
  function SortDescending(rs: seq<OperationRecord>): seq<OperationRecord> {
    if rs == [] then [] else Insert(rs[0], SortDescending(rs[1..]))
  }

  lemma {:induction false} InsertPermutes(r: OperationRecord, rs: seq<OperationRecord>)
    ensures multiset(Insert(r, rs)) == multiset{r} + multiset(rs)
  {
    if rs == [] || r.reservationSequence >= rs[0].reservationSequence {
    } else {
      InsertPermutes(r, rs[1..]);
      assert rs == [rs[0]] + rs[1..];
    }
  }

  lemma {:induction false} InsertSorts(r: OperationRecord, rs: seq<OperationRecord>)
    requires Descending(rs)
    ensures Descending(Insert(r, rs))
    ensures forall x :: x in Insert(r, rs) <==> x == r || x in rs
  {
    if rs == [] || r.reservationSequence >= rs[0].reservationSequence {
    } else {
      var t := Insert(r, rs[1..]);
      InsertSorts(r, rs[1..]);
      forall i | 0 <= i < |t|
        ensures rs[0].reservationSequence >= t[i].reservationSequence
      {
        assert t[i] in t;
        if t[i] != r {
          var k :| 0 <= k < |rs[1..]| && rs[1..][k] == t[i];
          assert rs[k + 1] == t[i];
        }
      }
    }
  }

  lemma {:induction false} InsertSince(r: OperationRecord, rs: seq<OperationRecord>, n: int)
    ensures ConfirmedSince(Insert(r, rs), n) == ConfirmedSince([r] + rs, n)
  {
    assert ([r] + rs)[1..] == rs;
    if rs == [] || r.reservationSequence >= rs[0].reservationSequence {
    } else {
      InsertSince(r, rs[1..], n);
      assert Insert(r, rs)[1..] == Insert(r, rs[1..]);
      assert ([r] + rs[1..])[1..] == rs[1..];
    }
  }

  lemma {:induction false} SortDescendingSorts(rs: seq<OperationRecord>)
    ensures Descending(SortDescending(rs))
    ensures multiset(SortDescending(rs)) == multiset(rs)
    ensures forall n :: ConfirmedSince(SortDescending(rs), n) == ConfirmedSince(rs, n)
  {
    if rs == [] {
    } else {
      var t := SortDescending(rs[1..]);
      SortDescendingSorts(rs[1..]);
      InsertSorts(rs[0], t);
      InsertPermutes(rs[0], t);
      assert rs == [rs[0]] + rs[1..];
      forall n
        ensures ConfirmedSince(SortDescending(rs), n) == ConfirmedSince(rs, n)
      {
        InsertSince(rs[0], t, n);
        assert ([rs[0]] + t)[1..] == t;
      }
    }
  }

  lemma SameElements(rs: seq<OperationRecord>, ss: seq<OperationRecord>)
    requires multiset(rs) == multiset(ss)
    ensures forall r :: r in rs <==> r in ss
  {
    forall r
      ensures r in rs <==> r in ss
    {
      assert r in rs <==> r in multiset(rs);
      assert r in ss <==> r in multiset(ss);
    }
  }

  lemma DistinctPermutes(rs: seq<OperationRecord>, ss: seq<OperationRecord>)
    requires multiset(rs) == multiset(ss) && DistinctSequences(rs)
    ensures DistinctSequences(ss)
  {
    forall i, j | 0 <= i < j < |ss|
      ensures ss[i].reservationSequence != ss[j].reservationSequence
    {
      if ss[i] == ss[j] {
        assert ss == ss[..i] + [ss[i]] + ss[i + 1..j] + [ss[j]] + ss[j + 1..];
        assert multiset(ss)[ss[i]] >= 2;
        AppearsOnce(rs, ss[i]);
      } else {
        SameElements(rs, ss);
        assert ss[i] in rs && ss[j] in rs;
      }
    }
  }

  lemma {:induction false} AppearsOnce(rs: seq<OperationRecord>, r: OperationRecord)
    requires DistinctSequences(rs)
    ensures multiset(rs)[r] <= 1
  {
    if rs == [] {
    } else {
      AppearsOnce(rs[1..], r);
      assert rs == [rs[0]] + rs[1..];
      assert rs[0] !in rs[1..];
    }
  }

  // ---- the accumulating loop ----

  /** The loop over `rs`, started from the given accumulators. */
  function Accumulate(rs: seq<OperationRecord>, confirmed: Money, cumulative: Money): Money {
    if rs == [] then cumulative
    else
      var next := confirmed + Confirmed(rs[0]);
      Accumulate(rs[1..], next, Max(cumulative, rs[0].startingRefunded + next))
  }

  /** The total for a history of refunds: the greatest bound, latest reservation first. */
  function GreatestBound(rs: seq<OperationRecord>): Money {
    Accumulate(SortDescending(rs), 0.0, 0.0)
  }

  /** The source's loop, which keeps two running totals. */
  method ComputeGreatestBound(rs: seq<OperationRecord>) returns (cumulative: Money)
    ensures cumulative == GreatestBound(rs)
  {
    var sorted := SortDescending(rs);
    var confirmed := 0.0;
    cumulative := 0.0;
    for i := 0 to |sorted|
      invariant Accumulate(sorted[i..], confirmed, cumulative) == GreatestBound(rs)
    {
      if sorted[i].state.Succeeded? && sorted[i].settledAmount.Some? {
        confirmed := confirmed + sorted[i].settledAmount.value;
      }
      cumulative := Max(cumulative, sorted[i].startingRefunded + confirmed);
      assert sorted[i..][1..] == sorted[i + 1..];
    }
  }

  lemma {:induction false} SinceNonNegative(rs: seq<OperationRecord>, n: int)
    requires NonNegative(rs)
    ensures 0.0 <= ConfirmedSince(rs, n)
  {
    if rs == [] {
    } else {
      SinceNonNegative(rs[1..], n);
    }
  }

  lemma {:induction false} NothingSince(rs: seq<OperationRecord>, n: int)
    requires forall r :: r in rs ==> r.reservationSequence < n
    ensures ConfirmedSince(rs, n) == 0.0
  {
    if rs == [] {
    } else {
      NothingSince(rs[1..], n);
    }
  }

  lemma {:induction false} AccumulateAtMost(
      rs: seq<OperationRecord>, confirmed: Money, cumulative: Money, limit: Money)
    requires Descending(rs) && NonNegative(rs)
    requires cumulative <= limit
    requires forall r :: r in rs ==> confirmed + LowerBound(rs, r) <= limit
    ensures Accumulate(rs, confirmed, cumulative) <= limit
  {
    if rs == [] {
    } else {
      var rest := rs[1..];
      var next := confirmed + Confirmed(rs[0]);
      SinceNonNegative(rest, rs[0].reservationSequence);
      assert confirmed + LowerBound(rs, rs[0]) <= limit;
      forall r | r in rest
        ensures next + LowerBound(rest, r) <= limit
      {
        assert r in rs;
        var k :| 0 <= k < |rest| && rest[k] == r;
        assert rs[0].reservationSequence >= rs[k + 1].reservationSequence;
        assert confirmed + LowerBound(rs, r) <= limit;
      }
      AccumulateAtMost(rest, next, Max(cumulative, rs[0].startingRefunded + next), limit);
    }
  }

  lemma {:induction false} AccumulateAtLeast(
      rs: seq<OperationRecord>, confirmed: Money, cumulative: Money)
    requires Descending(rs) && DistinctSequences(rs)
    ensures Accumulate(rs, confirmed, cumulative) >= cumulative
    ensures forall r :: r in rs ==> confirmed + LowerBound(rs, r) <= Accumulate(rs, confirmed, cumulative)
  {
    if rs == [] {
    } else {
      var rest := rs[1..];
      var next := confirmed + Confirmed(rs[0]);
      AccumulateAtLeast(rest, next, Max(cumulative, rs[0].startingRefunded + next));
      forall r | r in rs
        ensures confirmed + LowerBound(rs, r) <= Accumulate(rs, confirmed, cumulative)
      {
        if r == rs[0] {
          forall x | x in rest
            ensures x.reservationSequence < r.reservationSequence
          {
            var k :| 0 <= k < |rest| && rest[k] == x;
            assert rs[k + 1] == x;
          }
          NothingSince(rest, r.reservationSequence);
        } else {
          assert r in rest;
          var k :| 0 <= k < |rest| && rest[k] == r;
          assert rs[0].reservationSequence >= rs[k + 1].reservationSequence;
          assert next + LowerBound(rest, r) == confirmed + LowerBound(rs, r);
        }
      }
    }
  }

  // ---- what the total means ----

  /** Soundness: no upper limit on the money returned that respects every single bound can be
      exceeded by the total. Ties between sequences are allowed. */
  lemma GreatestBoundAtMost(rs: seq<OperationRecord>, limit: Money)
    requires NonNegative(rs) && 0.0 <= limit
    requires forall r :: r in rs ==> LowerBound(rs, r) <= limit
    ensures GreatestBound(rs) <= limit
  {
    var s := SortDescending(rs);
    SortDescendingSorts(rs);
    SameElements(rs, s);
    forall r | r in s
      ensures LowerBound(s, r) <= limit
    {
      assert LowerBound(s, r) == LowerBound(rs, r);
    }
    AccumulateAtMost(s, 0.0, 0.0, limit);
  }

  /** Completeness: with distinct sequences no bound is lost. */
  lemma GreatestBoundAtLeast(rs: seq<OperationRecord>)
    requires DistinctSequences(rs)
    ensures 0.0 <= GreatestBound(rs)
    ensures forall r :: r in rs ==> LowerBound(rs, r) <= GreatestBound(rs)
  {
    var s := SortDescending(rs);
    SortDescendingSorts(rs);
    SameElements(rs, s);
    DistinctPermutes(rs, s);
    AccumulateAtLeast(s, 0.0, 0.0);
    forall r | r in rs
      ensures LowerBound(rs, r) <= GreatestBound(rs)
    {
      assert LowerBound(s, r) == LowerBound(rs, r);
    }
  }

  ghost function MaximalBound(rs: seq<OperationRecord>, all: seq<OperationRecord>): (m: Money)
    ensures 0.0 <= m
    ensures forall r :: r in rs ==> LowerBound(all, r) <= m
    ensures m == 0.0 || exists r :: r in rs && LowerBound(all, r) == m
  {
    if rs == [] then 0.0
    else
      var rest := MaximalBound(rs[1..], all);
      assert forall r :: r in rs ==> r == rs[0] || r in rs[1..];
      if rest == 0.0 && LowerBound(all, rs[0]) < 0.0 then rest else Max(LowerBound(all, rs[0]), rest)
  }

  /** Exactness: the total of a nonempty history with distinct sequences is the greatest of its
      bounds. This names no order, so the order of the history cannot matter. */
  lemma GreatestBoundIsMaximum(rs: seq<OperationRecord>)
    requires rs != [] && NonNegative(rs) && DistinctSequences(rs)
    ensures forall r :: r in rs ==> LowerBound(rs, r) <= GreatestBound(rs)
    ensures exists r :: r in rs && LowerBound(rs, r) == GreatestBound(rs)
  {
    GreatestBoundAtLeast(rs);
    var m := MaximalBound(rs, rs);
    GreatestBoundAtMost(rs, m);
    if m == 0.0 {
      SinceNonNegative(rs, rs[0].reservationSequence);
      assert rs[0] in rs && LowerBound(rs, rs[0]) == GreatestBound(rs);
    } else {
      var r :| r in rs && LowerBound(rs, r) == m;
      assert LowerBound(rs, r) == GreatestBound(rs);
    }
  }

  lemma {:induction false} SinceSplits(rs: seq<OperationRecord>, ss: seq<OperationRecord>, n: int)
    ensures ConfirmedSince(rs + ss, n) == ConfirmedSince(rs, n) + ConfirmedSince(ss, n)
  {
    if rs == [] {
      assert rs + ss == ss;
    } else {
      SinceSplits(rs[1..], ss, n);
      assert (rs + ss)[1..] == rs[1..] + ss;
    }
  }

  lemma MultisetRemoves<T>(s: seq<T>, k: nat)
    requires k < |s|
    ensures multiset(s[..k] + s[k + 1..]) == multiset(s) - multiset{s[k]}
  {
    assert s == s[..k] + [s[k]] + s[k + 1..];
  }

  lemma RemoveSame<T>(s: seq<T>, t: seq<T>, k: nat)
    requires multiset(s) == multiset(t) && s != []
    requires k < |t| && t[k] == s[0]
    ensures multiset(s[1..]) == multiset(t[..k] + t[k + 1..])
  {
    MultisetRemoves(t, k);
    MultisetRemoves(s, 0);
    assert s[..0] + s[1..] == s[1..];
  }

  lemma SinceRemoves(rs: seq<OperationRecord>, k: nat, n: int)
    requires k < |rs|
    ensures ConfirmedSince(rs, n) == ConfirmedSince([rs[k]], n) + ConfirmedSince(rs[..k] + rs[k + 1..], n)
  {
    SinceSplits(rs[..k], rs[k..], n);
    SinceSplits([rs[k]], rs[k + 1..], n);
    SinceSplits(rs[..k], rs[k + 1..], n);
    assert rs == rs[..k] + rs[k..] && rs[k..] == [rs[k]] + rs[k + 1..];
  }

  /** The confirmed amounts since a point do not depend on the order of the history. */
  lemma {:induction false} SincePermutes(rs: seq<OperationRecord>, ss: seq<OperationRecord>, n: int)
    requires multiset(rs) == multiset(ss)
    ensures ConfirmedSince(rs, n) == ConfirmedSince(ss, n)
  {
    if rs == [] {
      assert |ss| == |multiset(ss)| == 0;
    } else {
      SameElements(rs, ss);
      assert rs[0] in ss;
      var k :| 0 <= k < |ss| && ss[k] == rs[0];
      var rest := ss[..k] + ss[k + 1..];
      SinceRemoves(ss, k, n);
      SinceRemoves(rs, 0, n);
      RemoveSame(rs, ss, k);
      assert rs[..0] + rs[1..] == rs[1..];
      SincePermutes(rs[1..], rest, n);
    }
  }

  /** Any reordering of a history with distinct sequences has the same total. */
  lemma GreatestBoundPermutes(rs: seq<OperationRecord>, ss: seq<OperationRecord>)
    requires multiset(rs) == multiset(ss)
    requires NonNegative(rs) && DistinctSequences(rs)
    ensures GreatestBound(rs) == GreatestBound(ss)
  {
    SameElements(rs, ss);
    DistinctPermutes(rs, ss);
    GreatestBoundAtLeast(rs);
    GreatestBoundAtLeast(ss);
    forall r | r in rs
      ensures LowerBound(rs, r) == LowerBound(ss, r)
    {
      SincePermutes(rs, ss, r.reservationSequence);
    }
    GreatestBoundAtMost(rs, GreatestBound(ss));
    GreatestBoundAtMost(ss, GreatestBound(rs));
  }
}
