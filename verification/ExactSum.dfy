/** Exact summation of finite decimals: the working precision computed from the amounts is large
    enough that no partial sum is ever rounded, whatever the caller's rounding mode is. */
module ExactSum {

  /** A finite decimal: `coefficient` times ten to the `exponent`. */
  datatype Decimal = Decimal(coefficient: int, exponent: int) {
    /** The exponent of the most significant digit. */
    function Adjusted(): int {
      exponent + Digits(Abs(coefficient)) - 1
    }

    /** The exact value in units of ten to the `unit`. */
    function In(unit: int): int
      requires unit <= exponent
    {
      coefficient * Pow(exponent - unit)
    }
  }

  const ZERO := Decimal(0, 0)

  function Abs(n: int): nat {
    if n < 0 then -n else n
  }

  function Pow(n: nat): (p: int)
    ensures 0 < p
  {
    if n == 0 then 1 else 10 * Pow(n - 1)
  }

  /** The number of decimal digits of a numeral; zero has one. */
  function Digits(n: nat): (d: nat)
    ensures 0 < d
  {
    if n < 10 then 1 else 1 + Digits(n / 10)
  }

  function Least(a: int, b: int): int {
    if a <= b then a else b
  }

  function Greatest(a: int, b: int): int {
    if a >= b then a else b
  }

  // ---- addition in a context ----

  /** Fit a coefficient into `precision` digits by dropping the least significant ones. Which
      neighbour is taken when something nonzero is dropped depends on the rounding mode: `up`. */
  function Round(coefficient: int, exponent: int, precision: nat, up: bool): Decimal
    requires 0 < precision
  {
    var digits := Digits(Abs(coefficient));
    if digits <= precision then Decimal(coefficient, exponent)
    else
      var unit := Pow(digits - precision);
      var kept := Abs(coefficient) / unit + if up && Abs(coefficient) % unit != 0 then 1 else 0;
      Decimal(if coefficient < 0 then -kept else kept, exponent + digits - precision)
  }

  /** The exact sum, then rounding to the precision of the context. */
  function Add(a: Decimal, b: Decimal, precision: nat, up: bool): Decimal
    requires 0 < precision
  {
    var exponent := Least(a.exponent, b.exponent);
    Round(a.In(exponent) + b.In(exponent), exponent, precision, up)
  }

  function LeastExponent(amounts: seq<Decimal>): int
    requires amounts != []
  {
    if |amounts| == 1 then amounts[0].exponent
    else Least(amounts[0].exponent, LeastExponent(amounts[1..]))
  }

  function GreatestDigit(amounts: seq<Decimal>): int
    requires amounts != []
  {
    if |amounts| == 1 then amounts[0].Adjusted()
    else Greatest(amounts[0].Adjusted(), GreatestDigit(amounts[1..]))
  }

  function Precision(amounts: seq<Decimal>): (p: nat)
    requires amounts != []
    ensures 0 < p
  {
    Greatest(1, GreatestDigit(amounts) - LeastExponent(amounts) + Digits(|amounts|) + 2)
  }

  /** The context's sum of a prefix, left to right from zero; `modes[i]` decides how the i-th
      addition would round. */
  function Accumulated(amounts: seq<Decimal>, precision: nat, modes: seq<bool>): Decimal
    requires 0 < precision && |modes| == |amounts|
  {
    if amounts == [] then ZERO
    else
      var n := |amounts| - 1;
      Add(Accumulated(amounts[..n], precision, modes[..n]), amounts[n], precision, modes[n])
  }

  function SumExact(amounts: seq<Decimal>, modes: seq<bool>): Decimal
    requires |modes| == |amounts|
  {
    if amounts == [] then ZERO else Accumulated(amounts, Precision(amounts), modes)
  }

  /** The same sum as the loop computes it. */
  method ComputeSum(amounts: seq<Decimal>, modes: seq<bool>) returns (total: Decimal)
    requires |modes| == |amounts|
    ensures total == SumExact(amounts, modes)
  {
    if amounts == [] {
      return ZERO;
    }
    var precision := Precision(amounts);
    total := ZERO;
    for i := 0 to |amounts|
      invariant total == Accumulated(amounts[..i], precision, modes[..i])
    {
      assert amounts[..i + 1][..i] == amounts[..i] && modes[..i + 1][..i] == modes[..i];
      total := Add(total, amounts[i], precision, modes[i]);
    }
    assert amounts[..|amounts|] == amounts && modes[..|modes|] == modes;
  }

  // ---- powers and digits ----

  lemma {:induction false} PowAdds(m: nat, n: nat)
    ensures Pow(m + n) == Pow(m) * Pow(n)
  {
    if m == 0 {
    } else {
      PowAdds(m - 1, n);
      assert 10 * (Pow(m - 1) * Pow(n)) == (10 * Pow(m - 1)) * Pow(n);
    }
  }

  lemma PowGrows(m: nat, n: nat)
    requires m <= n
    ensures Pow(m) <= Pow(n)
  {
    PowAdds(m, n - m);
    Times(Pow(m), Pow(n - m));
  }

  lemma Times(a: int, b: int)
    requires 0 < a && 0 < b
    ensures a <= a * b && b <= a * b
  {
    assert a * b - a == a * (b - 1);
    assert a * b - b == (a - 1) * b;
  }

  lemma {:induction false} DigitsBound(n: nat)
    ensures n < Pow(Digits(n))
    ensures 0 < n ==> Pow(Digits(n) - 1) <= n
  {
    if n < 10 {
      assert Pow(1) == 10 * Pow(0);
    } else {
      DigitsBound(n / 10);
    }
  }

  /** A number below ten to the `p` has at most `p` digits. */
  lemma DigitsAtMost(n: nat, p: nat)
    requires n < Pow(p) && 0 < p
    ensures Digits(n) <= p
  {
    DigitsBound(n);
    if p < Digits(n) {
      PowGrows(p, Digits(n) - 1);
    }
  }

  lemma Divides(q: nat, p: int)
    requires 0 < p
    ensures (q * p) / p == q && (q * p) % p == 0
  {
    var x := q * p;
    var d := x / p;
    assert x == d * p + x % p;
    if d < q {
      NotAbove(d + 1, q, p);
      Distributes(d, 1, p);
    } else if q < d {
      NotAbove(q + 1, d, p);
      Distributes(q, 1, p);
    }
  }

  // ---- rounding is exact ----

  /** A value with at most `precision` significant digits survives rounding, whatever the mode. */
  lemma RoundIsExact(coefficient: int, exponent: int, precision: nat, up: bool, q: int, zeros: nat)
    requires 0 < precision && coefficient == q * Pow(zeros) && Abs(q) < Pow(precision)
    ensures var r := Round(coefficient, exponent, precision, up);
      exponent <= r.exponent && r.In(exponent) == coefficient
  {
    var digits := Digits(Abs(coefficient));
    if digits <= precision {
      assert Pow(0) == 1;
    } else {
      var dropped := digits - precision;
      DroppedAreZeros(Abs(coefficient), precision, Abs(q), zeros) by {
        AbsTimes(q, Pow(zeros));
      }
      hide Pow;
      var kept := Abs(coefficient) / Pow(dropped);
      assert Round(coefficient, exponent, precision, up)
          == Decimal(if coefficient < 0 then -kept else kept, exponent + dropped);
      AbsTimes(if coefficient < 0 then -kept else kept, Pow(dropped));
      SignedProduct(coefficient, kept, Pow(dropped));
    }
  }

  lemma SignedProduct(c: int, kept: int, p: int)
    requires 0 < p && 0 <= kept && Abs(c) == kept * p
    ensures (if c < 0 then -kept else kept) * p == c
  {
    NegativeProduct(kept, p);
  }

  /** The digits that rounding drops from a short value are all zeros. */
  lemma DroppedAreZeros(n: nat, precision: nat, q: nat, zeros: nat)
    requires 0 < precision < Digits(n) && n == q * Pow(zeros) && q < Pow(precision)
    ensures var unit := Pow(Digits(n) - precision);
      n % unit == 0 && n / unit * unit == n
  {
    var dropped := Digits(n) - precision;
    BelowProduct(q, Pow(precision), Pow(zeros));
    PowAdds(precision, zeros);
    DigitsAtMost(n, precision + zeros);
    PowAdds(zeros - dropped, dropped);
    var kept := q * Pow(zeros - dropped);
    Associates(q, Pow(zeros - dropped), Pow(dropped));
    NegativeProduct(q, Pow(zeros - dropped));
    Divides(kept, Pow(dropped));
  }

  lemma Associates(a: int, b: int, c: int)
    ensures a * (b * c) == (a * b) * c
  {
  }

  lemma AbsTimes(q: int, p: int)
    requires 0 < p
    ensures Abs(q * p) == Abs(q) * p
  {
    if q < 0 {
      NegativeProduct(-q, p);
    } else {
      NegativeProduct(q, p);
    }
  }

  lemma NegativeProduct(a: nat, p: int)
    requires 0 < p
    ensures 0 <= a * p && (0 - a) * p == 0 - a * p
  {
  }

  lemma BelowProduct(a: nat, b: int, p: int)
    requires a < b && 0 < p
    ensures a * p < b * p
  {
  }

  // ---- the values being summed ----

  ghost function ExactTotal(amounts: seq<Decimal>, unit: int): int
    requires forall k :: 0 <= k < |amounts| ==> unit <= amounts[k].exponent
  {
    if amounts == [] then 0
    else ExactTotal(amounts[..|amounts| - 1], unit) + amounts[|amounts| - 1].In(unit)
  }

  ghost predicate Within(amounts: seq<Decimal>, least: int, greatest: int) {
    forall k :: 0 <= k < |amounts| ==> least <= amounts[k].exponent && amounts[k].Adjusted() <= greatest
  }

  lemma {:induction false} ExtremesBound(amounts: seq<Decimal>)
    requires amounts != []
    ensures Within(amounts, LeastExponent(amounts), GreatestDigit(amounts))
    ensures LeastExponent(amounts) <= GreatestDigit(amounts)
  {
    if |amounts| == 1 {
    } else {
      ExtremesBound(amounts[1..]);
      assert forall k :: 0 < k < |amounts| ==> amounts[k] == amounts[1..][k - 1];
    }
  }

  lemma OneValue(a: Decimal, least: int, greatest: int)
    requires least <= a.exponent && a.Adjusted() <= greatest
    ensures Abs(a.In(least)) < Pow(greatest + 1 - least)
  {
    DigitsBound(Abs(a.coefficient));
    AbsTimes(a.coefficient, Pow(a.exponent - least));
    BelowProduct(Abs(a.coefficient), Pow(Digits(Abs(a.coefficient))), Pow(a.exponent - least));
    PowAdds(Digits(Abs(a.coefficient)), a.exponent - least);
    PowGrows(Digits(Abs(a.coefficient)) + a.exponent - least, greatest + 1 - least);
  }

  lemma {:induction false} TotalBound(amounts: seq<Decimal>, least: int, greatest: int)
    requires Within(amounts, least, greatest) && least <= greatest
    ensures Abs(ExactTotal(amounts, least)) <= |amounts| * Pow(greatest + 1 - least)
  {
    if amounts == [] {
    } else {
      var n := |amounts| - 1;
      TotalBound(amounts[..n], least, greatest);
      OneValue(amounts[n], least, greatest);
      assert (n + 1) * Pow(greatest + 1 - least) == n * Pow(greatest + 1 - least) + Pow(greatest + 1 - least);
    }
  }

  lemma PrefixWithin(all: seq<Decimal>, n: nat, least: int, greatest: int)
    requires Within(all, least, greatest) && n <= |all|
    ensures Within(all[..n], least, greatest)
    ensures forall k :: 0 <= k < |all| ==> least <= all[k].exponent
  {
  }

  lemma TotalBelow(amounts: seq<Decimal>, least: int, greatest: int, count: nat)
    requires Within(amounts, least, greatest) && least <= greatest && |amounts| <= count
    ensures Abs(ExactTotal(amounts, least)) < Pow(Digits(count) + (greatest + 1 - least))
  {
    TotalBound(amounts, least, greatest);
    DigitsBound(count);
    PowAdds(Digits(count), greatest + 1 - least);
    hide Pow, Digits, ExactTotal, Within, Abs;
    Chain(Abs(ExactTotal(amounts, least)), |amounts|, count, Pow(Digits(count)), Pow(greatest + 1 - least),
          Pow(Digits(count) + (greatest + 1 - least)));
  }

  /** The total of any prefix has fewer significant digits than the precision. */
  lemma TotalFits(all: seq<Decimal>, n: nat)
    requires all != [] && n <= |all|
    ensures Within(all, LeastExponent(all), GreatestDigit(all))
    ensures Abs(ExactTotal(all[..n], LeastExponent(all))) < Pow(Precision(all))
  {
    hide Pow, Digits, LeastExponent, GreatestDigit, ExactTotal, Within, Abs, Precision;
    var least, greatest := LeastExponent(all), GreatestDigit(all);
    PrecisionCovers(all);
    ExtremesBound(all);
    PrefixWithin(all, n, least, greatest);
    TotalBelow(all[..n], least, greatest, |all|);
    PowGrows(Digits(|all|) + (greatest + 1 - least), Precision(all));
  }

  lemma PrecisionCovers(all: seq<Decimal>)
    requires all != []
    ensures Digits(|all|) + GreatestDigit(all) + 1 - LeastExponent(all) <= Precision(all)
  {
  }

  lemma Chain(total: nat, n: nat, count: nat, p: int, unit: int, limit: int)
    requires 0 < unit && n <= count < p && total <= n * unit && p * unit <= limit
    ensures total < limit
  {
    NotAbove(n, count, unit);
    BelowProduct(count, p, unit);
  }

  lemma NotAbove(a: nat, b: nat, p: int)
    requires a <= b && 0 < p
    ensures a * p <= b * p
  {
  }

  lemma InShifts(a: Decimal, high: int, low: int)
    requires low <= high <= a.exponent
    ensures a.In(low) == a.In(high) * Pow(high - low)
  {
    PowAdds(a.exponent - high, high - low);
    assert a.coefficient * (Pow(a.exponent - high) * Pow(high - low)) == a.In(high) * Pow(high - low);
  }

  lemma {:induction false} TotalShifts(amounts: seq<Decimal>, high: int, low: int)
    requires low <= high && forall k :: 0 <= k < |amounts| ==> high <= amounts[k].exponent
    ensures ExactTotal(amounts, low) == ExactTotal(amounts, high) * Pow(high - low)
  {
    if amounts == [] {
    } else {
      var n := |amounts| - 1;
      TotalShifts(amounts[..n], high, low);
      InShifts(amounts[n], high, low);
      Distributes(ExactTotal(amounts[..n], high), amounts[n].In(high), Pow(high - low));
    }
  }

  lemma Distributes(a: int, b: int, p: int)
    ensures (a + b) * p == a * p + b * p
  {
  }

  // ---- no addition rounds ----

  /** One addition of the running sum: the coefficient it forms has few enough significant digits. */
  lemma AddIsExact(acc: Decimal, a: Decimal, unit: int, least: int, total: int, precision: nat, up: bool)
    requires unit <= least && unit <= acc.exponent && unit <= a.exponent && 0 < precision
    requires acc.In(unit) + a.In(unit) == total * Pow(least - unit)
    requires Abs(total) < Pow(precision)
    ensures var r := Add(acc, a, precision, up);
      unit <= r.exponent && r.In(unit) == total * Pow(least - unit)
  {
    hide Pow, Round;
    var e := Least(acc.exponent, a.exponent);
    var c := acc.In(e) + a.In(e);
    InShifts(acc, e, unit);
    InShifts(a, e, unit);
    Distributes(acc.In(e), a.In(e), Pow(e - unit));
    ShortCoefficient(c, e, total, least, unit, precision);
    if e <= least {
      RoundIsExact(c, e, precision, up, total, least - e);
    } else {
      PowZero();
      RoundIsExact(c, e, precision, up, c, 0);
    }
    InShifts(Add(acc, a, precision, up), e, unit);
  }

  lemma PowZero()
    ensures Pow(0) == 1
  {
  }

  lemma ShortCoefficient(c: int, e: int, total: int, least: int, unit: int, precision: nat)
    requires unit <= least && unit <= e && c * Pow(e - unit) == total * Pow(least - unit)
    requires Abs(total) < Pow(precision)
    ensures if e <= least then c == total * Pow(least - e) else Abs(c) < Pow(precision)
  {
    hide Pow;
    if e <= least {
      PowAdds(least - e, e - unit);
      Associates(total, Pow(least - e), Pow(e - unit));
      Cancels(c, total * Pow(least - e), Pow(e - unit));
    } else {
      PowAdds(e - least, least - unit);
      Associates(c, Pow(e - least), Pow(least - unit));
      Cancels(c * Pow(e - least), total, Pow(least - unit));
      AbsTimes(c, Pow(e - least));
      if c != 0 {
        Times(Abs(c), Pow(e - least));
      }
    }
  }

  lemma Cancels(a: int, b: int, p: int)
    requires 0 < p && a * p == b * p
    ensures a == b
  {
    assert (a - b) * p == 0;
    if a < b {
      BelowProduct(0, b - a, p);
    } else if b < a {
      BelowProduct(0, a - b, p);
    }
  }

  /** Every partial sum is exact. */
  lemma {:induction false} PartialIsExact(all: seq<Decimal>, modes: seq<bool>, n: nat, unit: int)
    requires all != [] && |modes| == |all| && n <= |all|
    requires unit <= 0 && unit <= LeastExponent(all)
    ensures forall k :: 0 <= k < |all| ==> unit <= all[k].exponent
    ensures var partial := Accumulated(all[..n], Precision(all), modes[..n]);
      unit <= partial.exponent && partial.In(unit) == ExactTotal(all[..n], unit)
  {
    ExtremesBound(all);
    if n == 0 {
      assert ZERO.In(unit) == 0;
    } else {
      var least := LeastExponent(all);
      PartialIsExact(all, modes, n - 1, unit);
      assert all[..n][..n - 1] == all[..n - 1] && modes[..n][..n - 1] == modes[..n - 1];
      TotalFits(all, n);
      TotalShifts(all[..n], least, unit);
      AddIsExact(Accumulated(all[..n - 1], Precision(all), modes[..n - 1]), all[n - 1], unit, least,
                 ExactTotal(all[..n], least), Precision(all), modes[n - 1]);
    }
  }

  /** No partial sum of any finite list of signed decimals is rounded, so the result is the exact sum
      whatever rounding mode the caller's context has. `unit` is any unit fine enough to write all
      the amounts and the initial zero. */
  lemma SumIsExact(amounts: seq<Decimal>, modes: seq<bool>, unit: int)
    requires |modes| == |amounts| && unit <= 0
    requires forall k :: 0 <= k < |amounts| ==> unit <= amounts[k].exponent
    ensures var total := SumExact(amounts, modes);
      unit <= total.exponent && total.In(unit) == ExactTotal(amounts, unit)
    ensures amounts != [] ==> forall n :: 0 <= n <= |amounts| ==>
      var partial := Accumulated(amounts[..n], Precision(amounts), modes[..n]);
      unit <= partial.exponent && partial.In(unit) == ExactTotal(amounts[..n], unit)
  {
    if amounts != [] {
      LeastIsOne(amounts);
      forall n | 0 <= n <= |amounts|
        ensures var partial := Accumulated(amounts[..n], Precision(amounts), modes[..n]);
          unit <= partial.exponent && partial.In(unit) == ExactTotal(amounts[..n], unit)
      {
        PartialIsExact(amounts, modes, n, unit);
      }
      assert amounts[..|amounts|] == amounts && modes[..|modes|] == modes;
    }
  }

  lemma {:induction false} LeastIsOne(amounts: seq<Decimal>)
    requires amounts != []
    ensures exists k :: 0 <= k < |amounts| && amounts[k].exponent == LeastExponent(amounts)
  {
    if |amounts| == 1 {
      assert amounts[0].exponent == LeastExponent(amounts);
    } else {
      LeastIsOne(amounts[1..]);
      var k :| 0 <= k < |amounts[1..]| && amounts[1..][k].exponent == LeastExponent(amounts[1..]);
      assert amounts[k + 1] == amounts[1..][k];
      if amounts[0].exponent <= LeastExponent(amounts[1..]) {
        assert amounts[0].exponent == LeastExponent(amounts);
      } else {
        assert amounts[k + 1].exponent == LeastExponent(amounts);
      }
    }
  }
}
