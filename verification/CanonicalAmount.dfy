/** The canonical text of an amount: two finite decimals have the same text exactly when they are
    numerically equal, whatever scale they were written with. */
module CanonicalAmount {
  import opened ExactSum

  // ---- the text ----

  function Digit(d: nat): char
    requires d < 10
  {
    "0123456789"[d]
  }

  function Numeral(n: nat): (s: string)
    ensures s != "" && s[|s| - 1] != '.'
  {
    if n < 10 then [Digit(n)] else Numeral(n / 10) + [Digit(n % 10)]
  }

  function Zeros(k: nat): string {
    if k == 0 then "" else Zeros(k - 1) + "0"
  }

  /** What remains of `n` without its last `k` digits. */
  function Drop(n: nat, k: nat): nat {
    if k == 0 then n else Drop(n / 10, k - 1)
  }

  /** The last `k` digits of `n`, padded with zeros. */
  function Fraction(n: nat, k: nat): string {
    if k == 0 then "" else Fraction(n / 10, k - 1) + [Digit(n % 10)]
  }

  /** Fixed-point notation. */
  function Fixed(n: nat, exponent: int): string {
    if exponent >= 0 then Numeral(n) + Zeros(exponent)
    else Numeral(Drop(n, -exponent)) + "." + Fraction(n, -exponent)
  }

  function StripRight(s: string, c: char): string {
    if s != "" && s[|s| - 1] == c then StripRight(s[..|s| - 1], c) else s
  }

  function Unscaled(n: nat, exponent: int): string {
    if exponent < 0 then StripRight(StripRight(Fixed(n, exponent), '0'), '.') else Fixed(n, exponent)
  }

  function CanonicalText(a: Decimal): string {
    if a.coefficient == 0 then "0"
    else (if a.coefficient < 0 then "-" else "") + Unscaled(Abs(a.coefficient), a.exponent)
  }

  // ---- numerical equality and a normal form ----

  predicate SameNumber(a: Decimal, b: Decimal) {
    var unit := Least(a.exponent, b.exponent);
    a.In(unit) == b.In(unit)
  }

  /** No trailing zeros behind the point, and no positive exponent. */
  predicate Normal(a: Decimal) {
    a.exponent <= 0 && (a.coefficient == 0 ==> a.exponent == 0) && (a.exponent < 0 ==> Abs(a.coefficient) % 10 != 0)
  }

  function Tenth(n: int): int {
    if n < 0 then -(-n / 10) else n / 10
  }

  function Normalize(a: Decimal): Decimal
    decreases if a.exponent < 0 then -a.exponent else a.exponent
  {
    if a.coefficient == 0 then ZERO
    else if a.exponent > 0 then Normalize(Decimal(10 * a.coefficient, a.exponent - 1))
    else if a.exponent < 0 && Abs(a.coefficient) % 10 == 0 then Normalize(Decimal(Tenth(a.coefficient), a.exponent + 1))
    else a
  }

  lemma SameNumberIn(a: Decimal, b: Decimal, unit: int)
    requires unit <= a.exponent && unit <= b.exponent
    ensures SameNumber(a, b) <==> a.In(unit) == b.In(unit)
  {
    var high := Least(a.exponent, b.exponent);
    InShifts(a, high, unit);
    InShifts(b, high, unit);
    if a.In(unit) == b.In(unit) {
      Cancels(a.In(high), b.In(high), Pow(high - unit));
    }
  }

  lemma SameNumberTransitive(a: Decimal, b: Decimal, c: Decimal)
    requires SameNumber(a, b) && SameNumber(b, c)
    ensures SameNumber(a, c)
  {
    var unit := Least(Least(a.exponent, b.exponent), c.exponent);
    SameNumberIn(a, b, unit);
    SameNumberIn(b, c, unit);
    SameNumberIn(a, c, unit);
  }

  lemma OneDigitMore(n: int, e: int)
    ensures SameNumber(Decimal(n, e), Decimal(10 * n, e - 1))
  {
    assert Pow(1) == 10 * Pow(0);
    assert Decimal(n, e).In(e - 1) == n * 10;
    assert Decimal(10 * n, e - 1).In(e - 1) == 10 * n * Pow(0);
  }

  lemma ZeroIsZero(a: Decimal)
    requires a.coefficient == 0
    ensures SameNumber(a, ZERO)
  {
  }

  lemma {:induction false} NormalizeKeepsNumber(a: Decimal)
    ensures Normal(Normalize(a)) && SameNumber(a, Normalize(a))
    decreases if a.exponent < 0 then -a.exponent else a.exponent
  {
    if a.coefficient == 0 {
      ZeroIsZero(a);
    } else if a.exponent > 0 {
      var b := Decimal(10 * a.coefficient, a.exponent - 1);
      NormalizeKeepsNumber(b);
      OneDigitMore(a.coefficient, a.exponent);
      SameNumberTransitive(a, b, Normalize(b));
    } else if a.exponent < 0 && Abs(a.coefficient) % 10 == 0 {
      var b := Decimal(Tenth(a.coefficient), a.exponent + 1);
      NormalizeKeepsNumber(b);
      OneDigitMore(b.coefficient, b.exponent);
      SameNumberTransitive(a, b, Normalize(b));
    }
  }

  /** A number has one normal form. */
  lemma NormalIsUnique(a: Decimal, b: Decimal)
    requires Normal(a) && Normal(b) && SameNumber(a, b)
    ensures a == b
  {
    assert Pow(0) == 1;
    if a.exponent < b.exponent {
      Shorter(a, b);
    } else if b.exponent < a.exponent {
      Shorter(b, a);
    }
  }

  /** Of two equal numbers, the one written with more digits ends in a zero. */
  lemma Shorter(a: Decimal, b: Decimal)
    requires SameNumber(a, b) && a.exponent < b.exponent
    ensures Abs(a.coefficient) % 10 == 0
  {
    var k := b.exponent - a.exponent;
    assert Pow(0) == 1 && Pow(k) == 10 * Pow(k - 1);
    assert a.coefficient == b.coefficient * Pow(k);
    Associates(b.coefficient, 10, Pow(k - 1));
    assert a.coefficient == 10 * (b.coefficient * Pow(k - 1)) by {
      Associates(10, b.coefficient, Pow(k - 1));
    }
  }

  // ---- the text depends on the number alone ----

  lemma OneZeroMore(n: nat, e: int)
    requires 0 < n
    ensures Unscaled(10 * n, e - 1) == Unscaled(n, e)
  {
    assert (10 * n) / 10 == n && (10 * n) % 10 == 0;
    assert Digit(0) == '0';
    if e > 0 {
      hide Unscaled;
      assert Unscaled(n, e) == Fixed(n, e) && Unscaled(10 * n, e - 1) == Fixed(10 * n, e - 1) by {
        WholeText(n, e);
        WholeText(10 * n, e - 1);
      }
      ZeroInFront(e - 1);
      assert Numeral(n) + "0" + Zeros(e - 1) == Numeral(n) + ("0" + Zeros(e - 1));
    } else {
      OneZeroBehind(n, -e);
    }
  }

  lemma WholeText(n: nat, e: int)
    requires 0 <= e
    ensures Unscaled(n, e) == Fixed(n, e)
  {
  }

  lemma StripsZero(s: string)
    ensures StripRight(s + "0", '0') == StripRight(s, '0')
  {
    assert (s + "0")[..|s|] == s;
  }

  lemma ShiftedDigits(n: nat, k: nat)
    ensures Drop(10 * n, k + 1) == Drop(n, k)
    ensures Fraction(10 * n, k + 1) == Fraction(n, k) + "0"
  {
    assert (10 * n) / 10 == n && (10 * n) % 10 == 0;
    assert [Digit(0)] == "0";
  }

  lemma FixedShifts(n: nat, k: nat)
    ensures Fixed(10 * n, 0 - k - 1) == Numeral(Drop(n, k)) + "." + Fraction(n, k) + "0"
    ensures Unscaled(10 * n, 0 - k - 1) == StripRight(StripRight(Fixed(10 * n, 0 - k - 1), '0'), '.')
  {
    ShiftedDigits(n, k);
    hide Drop, Fraction, Numeral, StripRight;
    assert Numeral(Drop(n, k)) + "." + (Fraction(n, k) + "0") == Numeral(Drop(n, k)) + "." + Fraction(n, k) + "0";
  }

  lemma OneZeroBehind(n: nat, k: nat)
    ensures Unscaled(10 * n, 0 - k - 1) == Unscaled(n, 0 - k)
  {
    var whole := Numeral(Drop(n, k)) + "." + Fraction(n, k);
    FixedShifts(n, k);
    StripsZero(whole);
    if k == 0 {
      assert Drop(n, 0) == n && Fraction(n, 0) == "" && Zeros(0) == "";
      PointStripped(Numeral(n));
      hide Drop, Fraction, Numeral, StripRight;
      assert whole == Numeral(n) + ".";
      assert Numeral(n) + "" == Numeral(n);
    } else {
      hide Drop, Fraction, Numeral, StripRight;
      assert Fixed(n, 0 - k) == whole;
    }
  }

  lemma PointStripped(s: string)
    requires s != "" && s[|s| - 1] != '.'
    ensures StripRight(StripRight(s + ".", '0'), '.') == s
  {
    assert (s + ".")[..|s|] == s;
    assert StripRight(s + ".", '0') == s + ".";
  }

  lemma {:induction false} ZeroInFront(k: nat)
    ensures "0" + Zeros(k) == Zeros(k + 1)
  {
    if k == 0 {
    } else {
      ZeroInFront(k - 1);
      assert "0" + (Zeros(k - 1) + "0") == ("0" + Zeros(k - 1)) + "0";
    }
  }

  lemma {:induction false} TextOfNormal(a: Decimal)
    ensures CanonicalText(a) == CanonicalText(Normalize(a))
    decreases if a.exponent < 0 then -a.exponent else a.exponent
  {
    hide Unscaled;
    if a.coefficient == 0 {
    } else if a.exponent > 0 {
      TextOfNormal(Decimal(10 * a.coefficient, a.exponent - 1));
      OneZeroMore(Abs(a.coefficient), a.exponent);
    } else if a.exponent < 0 && Abs(a.coefficient) % 10 == 0 {
      TextOfNormal(Decimal(Tenth(a.coefficient), a.exponent + 1));
      OneZeroMore(Abs(Tenth(a.coefficient)), a.exponent + 1);
    }
  }

  // ---- reading the text back ----

  /** The digits of an unsigned text as one number, and how many stand behind the point. */
  datatype Reading = Reading(digits: int, behind: int)

  /** `behind` is -1 until the point is seen. */
  function Read(s: string): Reading {
    if s == "" then Reading(0, -1)
    else
      var before := Read(s[..|s| - 1]);
      var c := s[|s| - 1];
      if c == '.' then Reading(before.digits, 0)
      else Reading(10 * before.digits + (c as int - '0' as int), if before.behind < 0 then -1 else before.behind + 1)
  }

  lemma DigitReads(d: nat)
    requires d < 10
    ensures Digit(d) != '.' && Digit(d) != '-' && Digit(d) as int - '0' as int == d
  {
  }

  lemma {:induction false} ReadNumeral(n: nat)
    ensures Read(Numeral(n)) == Reading(n, -1)
    ensures forall c :: c in Numeral(n) ==> c != '-' && c != '.'
  {
    if n < 10 {
      DigitReads(n);
      assert [Digit(n)][..0] == "";
    } else {
      ReadNumeral(n / 10);
      DigitReads(n % 10);
      var front := Numeral(n / 10);
      assert (front + [Digit(n % 10)])[..|front|] == front;
    }
  }

  lemma ReadSnoc(s: string, c: char)
    ensures Read(s + [c])
         == if c == '.' then Reading(Read(s).digits, 0)
            else Reading(10 * Read(s).digits + (c as int - '0' as int), if Read(s).behind < 0 then -1 else Read(s).behind + 1)
  {
    assert (s + [c])[..|s|] == s;
  }

  lemma FractionStep(n: nat, k: nat)
    requires 0 < k
    ensures Drop(n, k) == Drop(n / 10, k - 1)
    ensures Fraction(n, k) == Fraction(n / 10, k - 1) + [Digit(n % 10)]
  {
  }

  lemma {:induction false} ReadFraction(n: nat, k: nat)
    ensures Read(Numeral(Drop(n, k)) + "." + Fraction(n, k)) == Reading(n, k)
  {
    var front := Numeral(Drop(n, k)) + ".";
    if k == 0 {
      ReadNumeral(n);
      ReadSnoc(Numeral(n), '.');
      assert front + "" == front;
    } else {
      ReadFraction(n / 10, k - 1);
      DigitReads(n % 10);
      FractionStep(n, k);
      hide Read, Numeral, Drop, Fraction;
      var rest := front + Fraction(n / 10, k - 1);
      ReadSnoc(rest, Digit(n % 10));
      assert front + (Fraction(n / 10, k - 1) + [Digit(n % 10)]) == rest + [Digit(n % 10)];
    }
  }

  lemma FirstIsDigit(n: nat, e: int)
    requires e <= 0
    ensures Fixed(n, e) != "" && Fixed(n, e)[0] != '-'
  {
    ReadNumeral(if e == 0 then n else Drop(n, -e));
    var whole := Numeral(if e == 0 then n else Drop(n, -e));
    assert whole[0] in whole;
    assert Fixed(n, e)[0] == whole[0];
  }

  /** Nothing is stripped from a normal form, so its text reads back exactly. */
  lemma ReadNormal(n: nat, e: int)
    requires 0 < n && e <= 0 && (e < 0 ==> n % 10 != 0)
    ensures Unscaled(n, e) == Fixed(n, e)
    ensures Read(Unscaled(n, e)) == if e == 0 then Reading(n, -1) else Reading(n, -e)
  {
    if e == 0 {
      ReadNumeral(n);
      assert Numeral(n) + "" == Numeral(n);
    } else {
      ReadFraction(n, -e);
      DigitReads(n % 10);
      var s := Fixed(n, e);
      FractionStep(n, -e);
      assert s[|s| - 1] == Digit(n % 10);
    }
  }

  lemma NormalTextIsInjective(a: Decimal, b: Decimal)
    requires Normal(a) && Normal(b) && CanonicalText(a) == CanonicalText(b)
    ensures a == b
  {
    if a.coefficient != 0 && b.coefficient != 0 {
      Signs(a, b);
    } else if a.coefficient != 0 {
      NotZeroText(a);
    } else if b.coefficient != 0 {
      NotZeroText(b);
    }
  }

  lemma NotZeroText(a: Decimal)
    requires Normal(a) && a.coefficient != 0
    ensures CanonicalText(a) != "0"
  {
    var n := Abs(a.coefficient);
    ReadNormal(n, a.exponent);
    FirstIsDigit(n, a.exponent);
    assert "0"[..0] == "";
    assert Read("0") == Reading(0, -1);
    assert "" + Unscaled(n, a.exponent) == Unscaled(n, a.exponent);
  }

  lemma SameSign(negative: bool, x: string, other: bool, y: string)
    requires x != "" && x[0] != '-' && y != "" && y[0] != '-'
    requires (if negative then "-" else "") + x == (if other then "-" else "") + y
    ensures negative == other && x == y
  {
    assert ("-" + x)[0] == '-' && ("-" + y)[0] == '-';
    assert ("-" + x)[1..] == x && ("-" + y)[1..] == y;
    assert "" + x == x && "" + y == y;
  }

  lemma Signs(a: Decimal, b: Decimal)
    requires Normal(a) && Normal(b) && a.coefficient != 0 && b.coefficient != 0 && CanonicalText(a) == CanonicalText(b)
    ensures a == b
  {
    hide Unscaled, Fixed, Read;
    ReadNormal(Abs(a.coefficient), a.exponent);
    ReadNormal(Abs(b.coefficient), b.exponent);
    FirstIsDigit(Abs(a.coefficient), a.exponent);
    FirstIsDigit(Abs(b.coefficient), b.exponent);
    SameSign(a.coefficient < 0, Unscaled(Abs(a.coefficient), a.exponent),
             b.coefficient < 0, Unscaled(Abs(b.coefficient), b.exponent));
  }

  /** Two finite amounts have the same canonical text exactly when they are numerically equal. */
  lemma CanonicalTextIsExact(a: Decimal, b: Decimal)
    ensures CanonicalText(a) == CanonicalText(b) <==> SameNumber(a, b)
  {
    var x, y := Normalize(a), Normalize(b);
    NormalizeKeepsNumber(a);
    NormalizeKeepsNumber(b);
    TextOfNormal(a);
    TextOfNormal(b);
    if CanonicalText(a) == CanonicalText(b) {
      NormalTextIsInjective(x, y);
      SameNumberTransitive(a, x, b);
    }
    if SameNumber(a, b) {
      SameNumberTransitive(x, a, b);
      SameNumberTransitive(x, b, y);
      NormalIsUnique(x, y);
    }
  }
}
