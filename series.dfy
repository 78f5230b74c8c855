/**
 The closed-form series sums the sequence generator shows beside the direct
 sum of the generated terms, and the proofs that each closed form agrees with
 that direct sum.

 The geometric sum takes the `r = 1` branch on the exact test `r == 1.0`;
 the source's floating-point tolerance has no counterpart over exact reals.
 */
module Series {
  import opened Sequences

  /** The primary arithmetic sum formula, `n/2 * (2a + (n-1)d)`. */
  function ArithmeticSeriesSum(a: real, d: real, n: nat): real
  {
    (n as real / 2.0) * (2.0 * a + (n - 1) as real * d)
  }

  /** The alternative arithmetic sum formula from the first and the last term, `n * (a1 + an) / 2`. */
  function FirstLastSeriesSum(n: nat, first: real, last: real): real
  {
    n as real * (first + last) / 2.0
  }

  /** The geometric sum formula: `n * a` when the ratio is 1, `a * (1 - r^n) / (1 - r)` otherwise. */
  function GeometricSeriesSum(a: real, r: real, n: nat): real
  {
    if r == 1.0 then n as real * a else RatioSeriesSum(a, r, Pow(r, n))
  }

  /** The `r != 1` branch of the geometric sum formula, `a * (1 - p) / (1 - r)`, with `p` standing for `r^n`. */
  function RatioSeriesSum(a: real, r: real, p: real): real
    requires r != 1.0
  {
    a * (1.0 - p) / (1.0 - r)
  }

  /** Adding the same term to two equal partial sums keeps them equal. */
  lemma AddBothSides(total: real, prefix: real, closed: real, term: real, next: real)
    requires total == prefix + term && prefix == closed && closed + term == next
    ensures total == next
  {
  }

  /** The arithmetic closed form for `n` terms is that for `n - 1` terms plus term `n - 1`. */
  lemma ArithmeticSeriesStep(a: real, d: real, n: nat)
    requires n >= 1
    ensures ArithmeticSeriesSum(a, d, n - 1) + ArithmeticTerm(a, d, n - 1) == ArithmeticSeriesSum(a, d, n)
  {
    var m := (n - 1) as real;
    assert n as real == m + 1.0;
    calc {
      ArithmeticSeriesSum(a, d, n - 1) + ArithmeticTerm(a, d, n - 1);
      (m / 2.0) * (2.0 * a + (m - 1.0) * d) + (a + m * d);
      m * a + m * (m - 1.0) / 2.0 * d + a + m * d;
      (m + 1.0) * a + (m + 1.0) * m / 2.0 * d;
      ((m + 1.0) / 2.0) * (2.0 * a + m * d);
      ArithmeticSeriesSum(a, d, n);
    }
  }

  /** With no terms the arithmetic formula gives 0. */
  lemma ArithmeticSeriesEmpty(a: real, d: real)
    ensures ArithmeticSeriesSum(a, d, 0) == 0.0
  {
    assert (0 as real / 2.0) == 0.0;
  }

  /** The direct sum of an arithmetic sequence equals `n/2 * (2a + (n-1)d)`. */
  lemma {:induction false} ArithmeticSumClosedForm(a: real, d: real, n: nat)
    ensures Sum(ArithmeticSequence(a, d, n)) == ArithmeticSeriesSum(a, d, n)
    decreases n
  {
    if n == 0 {
      ArithmeticSeriesEmpty(a, d);
    } else {
      ArithmeticSumClosedForm(a, d, n - 1);
      ArithmeticSumAppend(a, d, n);
      ArithmeticSeriesStep(a, d, n);
      AddBothSides(Sum(ArithmeticSequence(a, d, n)), Sum(ArithmeticSequence(a, d, n - 1)),
        ArithmeticSeriesSum(a, d, n - 1), ArithmeticTerm(a, d, n - 1), ArithmeticSeriesSum(a, d, n));
    }
  }

  /** The two arithmetic sum formulas agree once the last term is `a + (n-1)d`. */
  lemma ArithmeticFormulasAgree(a: real, d: real, n: nat)
    ensures FirstLastSeriesSum(n, a, a + (n - 1) as real * d) == ArithmeticSeriesSum(a, d, n)
  {
    var m := n as real;
    assert (n - 1) as real == m - 1.0;
    calc {
      FirstLastSeriesSum(n, a, a + (m - 1.0) * d);
      m * (a + (a + (m - 1.0) * d)) / 2.0;
      (m / 2.0) * (2.0 * a + (m - 1.0) * d);
      ArithmeticSeriesSum(a, d, n);
    }
  }

  /** The direct sum of an arithmetic sequence also equals `n * (first + last) / 2`. */
  lemma ArithmeticSumFirstLast(a: real, d: real, n: nat)
    requires n >= 1
    ensures var s := ArithmeticSequence(a, d, n);
      Sum(s) == FirstLastSeriesSum(n, s[0], s[n - 1])
  {
    ArithmeticSumClosedForm(a, d, n);
    ArithmeticEnds(a, d, n);
    ArithmeticFormulasAgree(a, d, n);
  }

  /** Every power of 1 is 1. */
  lemma {:induction false} PowOne(k: nat)
    ensures Pow(1.0, k) == 1.0
    decreases k
  {
    if k > 0 {
      PowOne(k - 1);
    }
  }

  /** The `r != 1` closed form vanishes at `p = r^0 = 1`. */
  lemma RatioSeriesOfOne(a: real, r: real)
    requires r != 1.0
    ensures RatioSeriesSum(a, r, 1.0) == 0.0
  {
    var c := 1.0 - r;
    assert a * (1.0 - 1.0) == 0.0;
    assert 0.0 / c == 0.0;
  }

  /** With no terms the geometric formula gives 0, on either branch. */
  lemma GeometricSeriesEmpty(a: real, r: real)
    ensures GeometricSeriesSum(a, r, 0) == 0.0
  {
    assert Pow(r, 0) == 1.0;
    if r != 1.0 {
      RatioSeriesOfOne(a, r);
    }
  }

  /** The algebra of one geometric step, with the power `p = r^n` taken as a plain number. */
  lemma GeometricStepAlgebra(a: real, r: real, p: real)
    requires r != 1.0
    ensures RatioSeriesSum(a, r, p) + a * p == RatioSeriesSum(a, r, r * p)
  {
    var c := 1.0 - r;
    var x := a * (1.0 - p) / c;
    assert x * c == a * (1.0 - p);
    assert (x + a * p) * c == a * (1.0 - r * p) by {
      assert (x + a * p) * c == x * c + a * p * c;
      assert a * (1.0 - p) + a * p * (1.0 - r) == a * (1.0 - r * p);
    }
  }

  /** The geometric closed form for `n` terms is that for `n - 1` terms plus term `n - 1`. */
  lemma GeometricSeriesStep(a: real, r: real, n: nat)
    requires n >= 1
    ensures GeometricSeriesSum(a, r, n - 1) + GeometricTerm(a, r, n - 1) == GeometricSeriesSum(a, r, n)
  {
    var p := Pow(r, n - 1);
    assert Pow(r, n) == r * p;
    assert GeometricTerm(a, r, n - 1) == a * p;
    if r == 1.0 {
      PowOne(n - 1);
    } else {
      GeometricStepAlgebra(a, r, p);
    }
  }

  /**
   The direct sum of a geometric sequence equals `n * a` when the ratio is 1
   and `a * (1 - r^n) / (1 - r)` otherwise.
   */
  lemma {:induction false} GeometricSumClosedForm(a: real, r: real, n: nat)
    ensures Sum(GeometricSequence(a, r, n)) == GeometricSeriesSum(a, r, n)
    decreases n
  {
    if n == 0 {
      GeometricSeriesEmpty(a, r);
    } else {
      GeometricSumClosedForm(a, r, n - 1);
      GeometricSumAppend(a, r, n);
      GeometricSeriesStep(a, r, n);
      AddBothSides(Sum(GeometricSequence(a, r, n)), Sum(GeometricSequence(a, r, n - 1)),
        GeometricSeriesSum(a, r, n - 1), GeometricTerm(a, r, n - 1), GeometricSeriesSum(a, r, n));
    }
  }

  /** With ratio 1 every term is the first term, so the direct sum is `n * a`. */
  lemma GeometricSumRatioOne(a: real, n: nat)
    ensures Sum(GeometricSequence(a, 1.0, n)) == n as real * a
  {
    GeometricSumClosedForm(a, 1.0, n);
  }
}
