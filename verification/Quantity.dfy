/**
 Kubernetes resource quantities, read and counted exactly.

 A value is a whole number of digits, a power of ten, and the ratio its suffix multiplies by. The
 counter decides large and small magnitudes without writing out the powers of ten; what it answers
 is nevertheless the exact ceiling.
 */
module Quantity {
  import opened Text

  const MAX_EVALUATOR_UNITS: nat := 0x7FFF_FFFF_FFFF_FFFF

  function Pow10(n: nat): (p: nat)
    ensures p > 0
  {
    if n == 0 then 1 else 10 * Pow10(n - 1)
  }

  function Pow2(n: nat): (p: nat)
    ensures p > 0
  {
    if n == 0 then 1 else 2 * Pow2(n - 1)
  }

  /** The value is digits * 10^exponent * numerator / denominator. */
  datatype Quantity = Quantity(digits: nat, exponent: int, numerator: nat, denominator: nat) {
    predicate Valid() {
      0 < numerator && 0 < denominator <= Pow10(9)
    }

    /** The value in units of 1/perUnit, as a fraction of whole numbers. */
    function Above(perUnit: nat): nat {
      digits * numerator * perUnit * if exponent > 0 then Pow10(exponent) else 1
    }

    function Below(): (d: nat)
      requires Valid()
      ensures d > 0
    {
      if exponent < 0 then
        Product(denominator, Pow10(-exponent));
        denominator * Pow10(-exponent)
      else denominator
    }
  }

  lemma Product(a: nat, b: nat)
    requires a > 0 && b > 0
    ensures a * b >= a && a * b >= b
  {
  }

  /** `u` is the least whole number that is not below n/d. */
  predicate IsCeiling(u: nat, n: nat, d: nat) {
    u * d >= n && (u > 0 ==> (u - 1) * d < n)
  }

  /** Python's -(-n // d). */
  function Ceil(n: nat, d: nat): (u: nat)
    requires d > 0
    ensures IsCeiling(u, n, d)
  {
    var q: int := (0 - n) / d;
    assert q * d <= 0 - n < q * d + d;
    assert (-q) * d == -(q * d) && (-q - 1) * d == -(q * d) - d;
    assert q <= 0;
    -q
  }

  lemma CeilingUnique(u: nat, v: nat, n: nat, d: nat)
    requires d > 0 && IsCeiling(u, n, d) && IsCeiling(v, n, d)
    ensures u == v
  {
    if u < v {
      MulMonotone(u, v - 1, d);
    } else if v < u {
      MulMonotone(v, u - 1, d);
    }
  }

  lemma MulMonotone(a: nat, b: nat, c: nat)
    requires a <= b
    ensures a * c <= b * c
  {
  }

  /** How many digits a number is written with. */
  function DigitCount(n: nat): nat {
    if n < 10 then 1 else 1 + DigitCount(n / 10)
  }

  lemma {:induction false} DigitCountBounds(n: nat)
    ensures n < Pow10(DigitCount(n))
  {
    if n >= 10 {
      DigitCountBounds(n / 10);
    }
  }

  lemma {:induction false} Pow10Monotone(a: nat, b: nat)
    requires a <= b
    ensures Pow10(a) <= Pow10(b)
    decreases b - a
  {
    if a < b {
      Pow10Monotone(a + 1, b);
    }
  }

  const MAX_POSITIVE_EXPONENT := DigitCount(MAX_EVALUATOR_UNITS) + 60 + 9

  function Bounded(units: nat): Option<nat> {
    if units > MAX_EVALUATOR_UNITS then None else Some(units)
  }

  /** A quantity counted in units of 1/perUnit, rounded up; None where it is refused as too large. */
  function InUnits(q: Quantity, perUnit: nat): Option<nat>
    requires q.Valid()
  {
    if q.digits == 0 then Some(0)
    else
      var numerator := q.digits * q.numerator * perUnit;
      if q.exponent < 0 then
        if -q.exponent >= DigitCount(numerator) then Some(1)
        else Bounded(Ceil(numerator, q.denominator * Pow10(-q.exponent)))
      else if q.exponent > MAX_POSITIVE_EXPONENT then None
      else Bounded(Ceil(numerator * Pow10(q.exponent), q.denominator))
  }

  /** `r` is the exact count of n/d: its ceiling if that fits the evaluator, and None if it does not. */
  predicate IsCount(r: Option<nat>, n: nat, d: nat) {
    match r
    case Some(u) => u <= MAX_EVALUATOR_UNITS && IsCeiling(u, n, d)
    case None => n > MAX_EVALUATOR_UNITS * d
  }

  lemma BoundedCeiling(n: nat, d: nat)
    requires d > 0
    ensures IsCount(Bounded(Ceil(n, d)), n, d)
  {
    var u := Ceil(n, d);
    if u > MAX_EVALUATOR_UNITS {
      MulMonotone(MAX_EVALUATOR_UNITS, u - 1, d);
    }
  }

  lemma CountFits(r: Option<nat>, n: nat, d: nat)
    requires d > 0 && IsCount(r, n, d)
    ensures r.Some? <==> n <= MAX_EVALUATOR_UNITS * d
  {
    if r.Some? {
      MulMonotone(r.value, MAX_EVALUATOR_UNITS, d);
    }
  }

  lemma OneIsCeiling(n: nat, d: nat)
    requires 0 < n <= d
    ensures IsCount(Some(1), n, d)
  {
  }

  lemma TinyIsOne(q: Quantity, perUnit: nat)
    requires q.Valid() && q.digits > 0 && perUnit > 0 && q.exponent < 0
    requires -q.exponent >= DigitCount(q.digits * q.numerator * perUnit)
    ensures 0 < q.Above(perUnit) < q.Below()
  {
    var n := q.digits * q.numerator * perUnit;
    Product(q.digits, q.numerator);
    Product(q.digits * q.numerator, perUnit);
    DigitCountBounds(n);
    Pow10Monotone(DigitCount(n), -q.exponent);
    Product(q.denominator, Pow10(-q.exponent));
  }

  lemma HugeDoesNotFit(q: Quantity, perUnit: nat)
    requires q.Valid() && q.digits > 0 && perUnit > 0 && q.exponent > MAX_POSITIVE_EXPONENT
    ensures IsCount(None, q.Above(perUnit), q.Below())
  {
    var n := q.digits * q.numerator * perUnit;
    Product(q.digits, q.numerator);
    Product(q.digits * q.numerator, perUnit);
    Product(n, Pow10(q.exponent));
    Pow10Monotone(29, q.exponent);
    MulMonotone(q.denominator, Pow10(9), MAX_EVALUATOR_UNITS);
    PowersOfTen();
  }

  lemma {:induction false} DigitCountIs(n: nat, k: nat)
    requires k > 0 && n < Pow10(k) && (k > 1 ==> Pow10(k - 1) <= n)
    ensures DigitCount(n) == k
  {
    if k > 1 {
      assert k > 2 ==> Pow10(k - 1) == 10 * Pow10(k - 2);
      DigitCountIs(n / 10, k - 1);
    }
  }

  lemma PowersOfTen()
    ensures MAX_EVALUATOR_UNITS * Pow10(9) < Pow10(29)
    ensures MAX_POSITIVE_EXPONENT == 88
  {
    assert Pow10(9) == 1_000_000_000;
    assert Pow10(18) == 1_000_000_000 * Pow10(9);
    assert Pow10(19) == 10 * Pow10(18);
    assert Pow10(29) == 10_000_000_000 * Pow10(19);
    DigitCountIs(MAX_EVALUATOR_UNITS, 19);
  }

  /**
   The counter is exact: it answers the ceiling of the value in units whenever that fits, and refuses
   the quantity just when it does not; neither shortcut ever disagrees with the long way.
   */
  lemma InUnitsExact(q: Quantity, perUnit: nat)
    requires q.Valid() && perUnit > 0
    ensures IsCount(InUnits(q, perUnit), q.Above(perUnit), q.Below())
  {
    var n, d := q.Above(perUnit), q.Below();
    if q.digits == 0 {
      assert n == 0 && 0 * d == 0;
    } else if q.exponent < 0 && -q.exponent >= DigitCount(q.digits * q.numerator * perUnit) {
      TinyIsOne(q, perUnit);
      OneIsCeiling(n, d);
    } else if q.exponent > MAX_POSITIVE_EXPONENT {
      HugeDoesNotFit(q, perUnit);
    } else {
      assert InUnits(q, perUnit) == Bounded(Ceil(n, d));
      BoundedCeiling(n, d);
    }
  }

  /** Two spellings of one value give the same count, or are both refused. */
  lemma SameValueSameCount(p: Quantity, q: Quantity, perUnit: nat)
    requires p.Valid() && q.Valid() && perUnit > 0
    requires p.Above(perUnit) * q.Below() == q.Above(perUnit) * p.Below()
    ensures InUnits(p, perUnit) == InUnits(q, perUnit)
  {
    InUnitsExact(p, perUnit);
    InUnitsExact(q, perUnit);
    SameFraction(p.Above(perUnit), p.Below(), q.Above(perUnit), q.Below(), InUnits(p, perUnit), InUnits(q, perUnit));
  }

  /** The exact count depends on the value of the fraction alone. */
  lemma SameFraction(a: nat, b: nat, c: nat, d: nat, u: Option<nat>, v: Option<nat>)
    requires b > 0 && d > 0 && a * d == c * b && IsCount(u, a, b) && IsCount(v, c, d)
    ensures u == v
  {
    CountFits(u, a, b);
    CountFits(v, c, d);
    if u.Some? {
      SameFits(a, b, c, d, MAX_EVALUATOR_UNITS);
      SameCeiling(u.value, a, b, c, d);
      CeilingUnique(u.value, v.value, c, d);
    } else if v.Some? {
      SameFits(c, d, a, b, MAX_EVALUATOR_UNITS);
    }
  }

  lemma SameFits(a: nat, b: nat, c: nat, d: nat, m: nat)
    requires b > 0 && d > 0 && a * d == c * b && a <= m * b
    ensures c <= m * d
  {
    MulMonotone(a, m * b, d);
    assert c * b <= (m * d) * b by {
      assert m * b * d == m * d * b;
    }
    if c > m * d {
      Cancel(m * d, c, b);
    }
  }

  lemma Cancel(x: nat, y: nat, z: nat)
    requires z > 0 && x < y
    ensures x * z < y * z
  {
  }

  lemma SameCeiling(u: nat, a: nat, b: nat, c: nat, d: nat)
    requires b > 0 && d > 0 && a * d == c * b && IsCeiling(u, a, b)
    ensures IsCeiling(u, c, d)
  {
    SameFits(a, b, c, d, u);
    if u > 0 && (u - 1) * d >= c {
      SameFits(c, d, a, b, u - 1);
    }
  }
}
