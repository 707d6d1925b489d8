/** Sums of exact amounts. */
module Sums {

  ghost function Sum(xs: seq<real>): real {
    if xs == [] then 0.0 else xs[0] + Sum(xs[1..])
  }

  lemma {:induction false} SumConcat(xs: seq<real>, ys: seq<real>)
    ensures Sum(xs + ys) == Sum(xs) + Sum(ys)
  {
    if xs == [] {
      assert xs + ys == ys;
    } else {
      SumConcat(xs[1..], ys);
      assert (xs + ys)[1..] == xs[1..] + ys;
    }
  }

  lemma SumSnoc(xs: seq<real>, x: real)
    ensures Sum(xs + [x]) == Sum(xs) + x
  {
    SumConcat(xs, [x]);
    assert [x][1..] == [];
  }

  lemma SumPrefix(xs: seq<real>, n: nat)
    requires n < |xs|
    ensures Sum(xs[..n + 1]) == Sum(xs[..n]) + xs[n]
  {
    assert xs[..n + 1] == xs[..n] + [xs[n]];
    SumSnoc(xs[..n], xs[n]);
  }

  lemma SumSplit(xs: seq<real>, k: nat)
    requires k <= |xs|
    ensures Sum(xs) == Sum(xs[..k]) + Sum(xs[k..])
  {
    SumConcat(xs[..k], xs[k..]);
    assert xs == xs[..k] + xs[k..];
  }

  lemma SumUpdate(xs: seq<real>, i: nat, v: real)
    requires i < |xs|
    ensures Sum(xs[i := v]) == Sum(xs) - xs[i] + v
  {
    SumSplit(xs, i);
    SumSplit(xs[i := v], i);
    assert xs[i := v][..i] == xs[..i];
    assert xs[i := v][i..][1..] == xs[i..][1..];
  }

  lemma {:induction false} SumAtMost(xs: seq<real>, ys: seq<real>)
    requires |xs| == |ys|
    requires forall i :: 0 <= i < |xs| ==> xs[i] <= ys[i]
    ensures Sum(xs) <= Sum(ys)
  {
    if xs == [] {
    } else {
      SumAtMost(xs[1..], ys[1..]);
    }
  }

  lemma {:induction false} SumZero(xs: seq<real>)
    requires forall i :: 0 <= i < |xs| ==> xs[i] == 0.0
    ensures Sum(xs) == 0.0
  {
    if xs == [] {
    } else {
      SumZero(xs[1..]);
    }
  }

  lemma SumNonNegative(xs: seq<real>)
    requires forall i :: 0 <= i < |xs| ==> 0.0 <= xs[i]
    ensures 0.0 <= Sum(xs)
  {
    var zeros := seq(|xs|, i => 0.0);
    SumZero(zeros);
    SumAtMost(zeros, xs);
  }
}
