/**
 The sequence engine of the sequence generator: the arithmetic and geometric
 generators, the specification functions they are proved against, and the
 element-wise properties of the sequences they build.

 Numbers are exact reals; the term count is an unbounded integer, so a
 count of zero or below is representable and yields the empty sequence.
 */
module Sequences {

  /** `r` raised to the natural power `k`; `Pow(r, 0) == 1.0` for every `r`, including 0.0. */
  function Pow(r: real, k: nat): real
    decreases k
  {
    if k == 0 then 1.0 else r * Pow(r, k - 1)
  }

  /** The direct sum of the terms, added from the first to the last. */
  function Sum(s: seq<real>): real
    decreases |s|
  {
    if s == [] then 0.0 else Sum(s[..|s| - 1]) + s[|s| - 1]
  }

  /** The number of terms a generator produces for a requested count `n`: none when `n <= 0`. */
  function TermCount(n: int): nat
  {
    if n <= 0 then 0 else n
  }

  /** Term `i` (counted from 0) of the arithmetic sequence with first term `a` and difference `d`. */
  function ArithmeticTerm(a: real, d: real, i: nat): real
  {
    a + i as real * d
  }

  /** Term `i` (counted from 0) of the geometric sequence with first term `a` and ratio `r`. */
  function GeometricTerm(a: real, r: real, i: nat): real
  {
    a * Pow(r, i)
  }

  /**
   The arithmetic sequence with first term `a` and common difference `d`,
   built as the generator builds it: one term appended per index.
   */
  function ArithmeticSequence(a: real, d: real, n: int): (s: seq<real>)
    ensures |s| == TermCount(n)
    decreases n
  {
    if n <= 0 then [] else ArithmeticSequence(a, d, n - 1) + [ArithmeticTerm(a, d, n - 1)]
  }

  /**
   The geometric sequence with first term `a` and common ratio `r`, built as
   the generator builds it: one term appended per index.
   */
  function GeometricSequence(a: real, r: real, n: int): (s: seq<real>)
    ensures |s| == TermCount(n)
    decreases n
  {
    if n <= 0 then [] else GeometricSequence(a, r, n - 1) + [GeometricTerm(a, r, n - 1)]
  }

  /** Builds the arithmetic sequence with a loop, one appended term per index. */
  method GenerateArithmetic(firstTerm: real, commonDiff: real, numTerms: int) returns (sequence: seq<real>)
    ensures numTerms <= 0 ==> sequence == []
    ensures numTerms > 0 ==> |sequence| == numTerms
    ensures forall i :: 0 <= i < |sequence| ==> sequence[i] == firstTerm + i as real * commonDiff
    ensures sequence == ArithmeticSequence(firstTerm, commonDiff, numTerms)
  {
    if numTerms <= 0 {
      return [];
    }
    sequence := [];
    var i := 0;
    while i < numTerms
      invariant 0 <= i <= numTerms
      invariant sequence == ArithmeticSequence(firstTerm, commonDiff, i)
    {
      var term := firstTerm + i as real * commonDiff;
      sequence := sequence + [term];
      i := i + 1;
    }
    forall i | 0 <= i < |sequence|
      ensures sequence[i] == firstTerm + i as real * commonDiff
    {
      ArithmeticSequenceAt(firstTerm, commonDiff, numTerms, i);
    }
  }

  /** Builds the geometric sequence with a loop, one appended term per index. */
  method GenerateGeometric(firstTerm: real, commonRatio: real, numTerms: int) returns (sequence: seq<real>)
    ensures numTerms <= 0 ==> sequence == []
    ensures numTerms > 0 ==> |sequence| == numTerms
    ensures forall i :: 0 <= i < |sequence| ==> sequence[i] == firstTerm * Pow(commonRatio, i)
    ensures sequence == GeometricSequence(firstTerm, commonRatio, numTerms)
  {
    if numTerms <= 0 {
      return [];
    }
    sequence := [];
    var i := 0;
    while i < numTerms
      invariant 0 <= i <= numTerms
      invariant sequence == GeometricSequence(firstTerm, commonRatio, i)
    {
      var term := firstTerm * Pow(commonRatio, i);
      assert term == GeometricTerm(firstTerm, commonRatio, i);
      sequence := sequence + [term];
      i := i + 1;
    }
    forall i | 0 <= i < |sequence|
      ensures sequence[i] == firstTerm * Pow(commonRatio, i)
    {
      GeometricSequenceAt(firstTerm, commonRatio, numTerms, i);
    }
  }

  /** Every arithmetic term is the first term plus its index times the difference. */
  lemma {:induction false} ArithmeticSequenceAt(a: real, d: real, n: int, i: int)
    requires 0 <= i < n
    ensures ArithmeticSequence(a, d, n)[i] == a + i as real * d
    decreases n
  {
    if i < n - 1 {
      ArithmeticSequenceAt(a, d, n - 1, i);
    }
  }

  /** Every geometric term is the first term times the ratio to the power of its index. */
  lemma {:induction false} GeometricSequenceAt(a: real, r: real, n: int, i: int)
    requires 0 <= i < n
    ensures GeometricSequence(a, r, n)[i] == a * Pow(r, i)
    decreases n
  {
    if i < n - 1 {
      GeometricSequenceAt(a, r, n - 1, i);
    }
  }

  /** The first arithmetic term is `a` and the last one is `a + (n-1)d`. */
  lemma {:induction false} ArithmeticEnds(a: real, d: real, n: int)
    requires n >= 1
    ensures ArithmeticSequence(a, d, n)[0] == a
    ensures ArithmeticSequence(a, d, n)[n - 1] == a + (n - 1) as real * d
  {
    ArithmeticSequenceAt(a, d, n, 0);
  }

  /** The first geometric term is `a`, even when the ratio is zero; the last one is `a * r^(n-1)`. */
  lemma {:induction false} GeometricEnds(a: real, r: real, n: int)
    requires n >= 1
    ensures GeometricSequence(a, r, n)[0] == a
    ensures GeometricSequence(a, r, n)[n - 1] == a * Pow(r, n - 1)
  {
    GeometricSequenceAt(a, r, n, 0);
  }

  /** Consecutive arithmetic terms differ by exactly the common difference. */
  lemma {:induction false} ArithmeticConstantDifference(a: real, d: real, n: int, i: int)
    requires 0 <= i && i + 1 < n
    ensures ArithmeticSequence(a, d, n)[i + 1] - ArithmeticSequence(a, d, n)[i] == d
  {
    ArithmeticSequenceAt(a, d, n, i);
    ArithmeticSequenceAt(a, d, n, i + 1);
  }

  /** Each geometric term after the first is the previous one times the common ratio. */
  lemma {:induction false} GeometricConstantRatio(a: real, r: real, n: int, i: int)
    requires 0 <= i && i + 1 < n
    ensures GeometricSequence(a, r, n)[i + 1] == GeometricSequence(a, r, n)[i] * r
  {
    GeometricSequenceAt(a, r, n, i);
    GeometricSequenceAt(a, r, n, i + 1);
    assert Pow(r, i + 1) == r * Pow(r, i);
    assert a * (r * Pow(r, i)) == (a * Pow(r, i)) * r;
  }

  /** Appending a term adds it to the direct sum. */
  lemma SumAppend(s: seq<real>, x: real)
    ensures Sum(s + [x]) == Sum(s) + x
  {
    assert (s + [x])[..|s|] == s;
  }

  /** The direct sum of `n` arithmetic terms is that of the first `n - 1` terms plus term `n - 1`. */
  lemma ArithmeticSumAppend(a: real, d: real, n: int)
    requires n >= 1
    ensures Sum(ArithmeticSequence(a, d, n)) == Sum(ArithmeticSequence(a, d, n - 1)) + ArithmeticTerm(a, d, n - 1)
  {
    SumAppend(ArithmeticSequence(a, d, n - 1), ArithmeticTerm(a, d, n - 1));
  }

  /** The direct sum of `n` geometric terms is that of the first `n - 1` terms plus term `n - 1`. */
  lemma GeometricSumAppend(a: real, r: real, n: int)
    requires n >= 1
    ensures Sum(GeometricSequence(a, r, n)) == Sum(GeometricSequence(a, r, n - 1)) + GeometricTerm(a, r, n - 1)
  {
    SumAppend(GeometricSequence(a, r, n - 1), GeometricTerm(a, r, n - 1));
  }
}
