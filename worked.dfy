/**
 The worked examples of the sequence generator's explanation text, checked
 against the model. The explanation lists only the opening terms of each
 example; the sums stated here are further cases of the same sequences, each
 stated both as the direct sum of the generated terms and as the closed form.
 */
module WorkedExamples {
  import opened Sequences
  import opened Series

  /** 2, 4, 6, 8, 10: first term 2, common difference 2; the five terms add up to 30. */
  lemma EvenNumbers()
    ensures ArithmeticSequence(2.0, 2.0, 5) == [2.0, 4.0, 6.0, 8.0, 10.0]
    ensures Sum(ArithmeticSequence(2.0, 2.0, 5)) == 30.0
    ensures ArithmeticSeriesSum(2.0, 2.0, 5) == 30.0
  {
    ArithmeticSumClosedForm(2.0, 2.0, 5);
  }

  /** 5, 8, 11, 14, 17: first term 5, common difference 3. */
  lemma StepOfThree()
    ensures ArithmeticSequence(5.0, 3.0, 5) == [5.0, 8.0, 11.0, 14.0, 17.0]
  {
  }

  /** 10, 7, 4, 1, -2: first term 10, common difference -3; the first four terms add up to 22. */
  lemma Countdown()
    ensures ArithmeticSequence(10.0, -3.0, 5) == [10.0, 7.0, 4.0, 1.0, -2.0]
    ensures Sum(ArithmeticSequence(10.0, -3.0, 4)) == 22.0
    ensures ArithmeticSeriesSum(10.0, -3.0, 4) == 22.0
  {
    ArithmeticSumClosedForm(10.0, -3.0, 4);
  }

  /** 2, 4, 8, 16, 32: first term 2, common ratio 2; the five terms add up to 62. */
  lemma Doubling()
    ensures GeometricSequence(2.0, 2.0, 5) == [2.0, 4.0, 8.0, 16.0, 32.0]
    ensures Sum(GeometricSequence(2.0, 2.0, 5)) == 62.0
    ensures GeometricSeriesSum(2.0, 2.0, 5) == 62.0
  {
    GeometricSumClosedForm(2.0, 2.0, 5);
  }

  /** 1, 3, 9, 27, 81: first term 1, common ratio 3; the first four terms add up to 40. */
  lemma PowersOfThree()
    ensures GeometricSequence(1.0, 3.0, 5) == [1.0, 3.0, 9.0, 27.0, 81.0]
    ensures Sum(GeometricSequence(1.0, 3.0, 4)) == 40.0
    ensures GeometricSeriesSum(1.0, 3.0, 4) == 40.0
  {
    GeometricSumClosedForm(1.0, 3.0, 4);
  }

  /** 100, 50, 25, 12.5: first term 100, common ratio 0.5; the first three terms add up to 175. */
  lemma Halving()
    ensures GeometricSequence(100.0, 0.5, 4) == [100.0, 50.0, 25.0, 12.5]
    ensures Sum(GeometricSequence(100.0, 0.5, 3)) == 175.0
    ensures GeometricSeriesSum(100.0, 0.5, 3) == 175.0
  {
    GeometricSumClosedForm(100.0, 0.5, 3);
  }

  /** With ratio 1 every term equals the first, and the `n * a` branch gives the sum. */
  lemma ConstantRatio()
    ensures GeometricSequence(5.0, 1.0, 4) == [5.0, 5.0, 5.0, 5.0]
    ensures Sum(GeometricSequence(5.0, 1.0, 4)) == 20.0
    ensures GeometricSeriesSum(5.0, 1.0, 4) == 20.0
  {
    GeometricSumClosedForm(5.0, 1.0, 4);
  }
}
