# Sequence generator: a verified model of its sequence engine

The sequence generator is a small web form. The user picks an arithmetic or a
geometric sequence and enters a first term, a common difference or ratio, and
a number of terms. The form checks the term count, generates the terms, and
shows them with the sum of the first n terms. That sum is shown twice: added
up term by term, and from the closed-form formula. This project models the
engine behind the form in Dafny and proves what it promises:

- `sequences.dfy` (module `Sequences`): the two generators. Each is a method
  with a `while` loop that appends one term per index, as the source's
  `for i in range(num_terms)` loop does. They are proved against the
  specification functions `ArithmeticSequence` and `GeometricSequence`,
  which build the same list one appended term at a time. It also holds the
  lemmas on the generated terms: the value of every term, the first and last
  terms, and the constant difference or ratio between neighbours. `Pow` is
  exponentiation to a natural power with `Pow(r, 0) == 1.0` for every `r`,
  0.0 included, like Python's `**` with an integer exponent. `Sum` is the
  direct left-to-right sum, like Python's `sum`.
- `series.dfy` (module `Series`): the closed forms `n/2 * (2a + (n-1)d)` and
  `n * (a1 + an) / 2` for arithmetic sums, and `n * a` (ratio 1) or
  `a * (1 - r^n) / (1 - r)` for geometric sums. Each is proved equal to the
  direct sum of the generated sequence: for every n >= 0, except the
  first-and-last form, which needs a last term and is proved for every n >= 1.
- `generator.dfy` (module `Generator`): one request. The term count must be
  in 1..1000; a count of 0 or below gets one error and a count above 1000
  another, and in both cases no sequence is made. A valid request gives the
  terms, the last term, the direct sum, the formula sum and, for an
  arithmetic sequence, the first-and-last-term sum. `Evaluate` proves that
  every sum it reports equals the direct sum.
- `worked.dfy` (module `WorkedExamples`): the example sequences from the
  form's explanation text, checked term by term against the model. The
  explanation gives no sums; the sums stated beside them (30, 22, 62, 40,
  175) and the ratio-1 sequence 5, 5, 5, 5 are further cases of the same
  sequences, each stated as the direct sum and as the closed form.

Numbers are exact `real`s and the term count is an unbounded `int`. The
source tests for ratio 1 with the tolerance `abs(r - 1) < 1e-10`; here that
test is the exact `r == 1.0`. Over exact reals, `n * a` is the sum only when r
is exactly 1.

The form's "Sum using Formula" metric (app.py:267) shows the direct sum. The
formula values appear in the worked derivation (app.py:211-219, app.py:247-259)
and in the properties panel (app.py:291-300). The model reports the formula
value and proves it equal to the direct sum. The properties panel computes
the formula only when n > 1 (app.py:287). The derivation tab computes the
arithmetic formula and the `r != 1` geometric formula for every n >= 1, but
for a geometric sequence with ratio 1 it shows the direct sum (app.py:235),
so the source evaluates `n * a` only at app.py:296, when n > 1. The model
computes the formula for every valid count, this case included.

## Model

| member | source | states |
|---|---|---|
| `Sequences.Pow` | app.py:42 | Python's `r ** i` for a natural `i`, with `r ** 0 == 1`; no contract of its own, `Series.PowOne` and `Sequences.GeometricConstantRatio` state its properties |
| `Sequences.Sum` | app.py:193 | Python's `sum`, left to right; no contract of its own, `Sequences.SumAppend` states its step |
| `Sequences.TermCount` | app.py:15-16 | the number of terms the loop makes, 0 when `num_terms <= 0`; no contract of its own, used in the length clauses of `Sequences.ArithmeticSequence` and `Sequences.GeometricSequence` |
| `Sequences.ArithmeticTerm` | app.py:20 | term `i` of an arithmetic sequence, `a + i * d`; no contract of its own, `Sequences.ArithmeticSequenceAt` states it is term `i` |
| `Sequences.GeometricTerm` | app.py:42 | term `i` of a geometric sequence, `a * r ** i`; no contract of its own, `Sequences.GeometricSequenceAt` states it is term `i` |
| `Sequences.GenerateArithmetic` | app.py:3-23 | returns `[]` when `numTerms <= 0`; otherwise exactly `numTerms` terms, term `i` being `firstTerm + i * commonDiff`; the result is `ArithmeticSequence(firstTerm, commonDiff, numTerms)` |
| `Sequences.GenerateGeometric` | app.py:25-45 | returns `[]` when `numTerms <= 0`; otherwise exactly `numTerms` terms, term `i` being `firstTerm * r^i` with `r^0 = 1`; the result is `GeometricSequence(firstTerm, commonRatio, numTerms)` |
| `Sequences.ArithmeticSequence` | app.py:15-21 | one term appended per index gives a list of length `numTerms`, or empty when `numTerms <= 0` |
| `Sequences.GeometricSequence` | app.py:37-43 | one term appended per index gives a list of length `numTerms`, or empty when `numTerms <= 0` |
| `Sequences.ArithmeticSequenceAt` | app.py:19-21 | for every `0 <= i < n`, term `i` is `a + i * d` |
| `Sequences.GeometricSequenceAt` | app.py:41-43 | for every `0 <= i < n`, term `i` is `a * r^i` |
| `Sequences.ArithmeticEnds` | app.py:304-307 | for `n >= 1` the first term is `a` and the last term is `a + (n-1)d` |
| `Sequences.GeometricEnds` | app.py:304-309 | for `n >= 1` the first term is `a` for every ratio, 0 included; the last term is `a * r^(n-1)` |
| `Sequences.ArithmeticConstantDifference` | app.py:9-20 | consecutive terms differ by exactly the common difference |
| `Sequences.GeometricConstantRatio` | app.py:31-42 | each term after the first is the previous term times the common ratio |
| `Sequences.SumAppend` | app.py:193 | the direct sum grows by exactly the appended term |
| `Sequences.ArithmeticSumAppend` | app.py:288 | the direct sum of n arithmetic terms is that of the first n-1 terms plus term n-1 |
| `Sequences.GeometricSumAppend` | app.py:288 | the direct sum of n geometric terms is that of the first n-1 terms plus term n-1 |
| `Series.ArithmeticSeriesSum` | app.py:292 | the formula `n/2 * (2a + (n-1)d)`; no contract of its own, `Series.ArithmeticSumClosedForm` proves it equals the direct sum |
| `Series.FirstLastSeriesSum` | app.py:226 | the formula `n * (a1 + an) / 2`; no contract of its own, `Series.ArithmeticSumFirstLast` proves it equals the direct sum |
| `Series.GeometricSeriesSum` | app.py:295-300 | `n * a` when r = 1, `a * (1 - r^n) / (1 - r)` otherwise; no contract of its own, `Series.GeometricSumClosedForm` proves it equals the direct sum |
| `Series.RatioSeriesSum` | app.py:299 | the `r != 1` formula with `r^n` passed in as a number; no contract of its own, `Series.GeometricStepAlgebra` states its step |
| `Series.ArithmeticSeriesStep` | app.py:292 | the formula `n/2 * (2a + (n-1)d)` for n terms equals the formula for n-1 terms plus term n-1 |
| `Series.ArithmeticSeriesEmpty` | app.py:292 | proof step (base case of `Series.ArithmeticSumClosedForm`): the arithmetic formula gives 0 for zero terms |
| `Series.ArithmeticSumClosedForm` | app.py:288-293 | for every n >= 0 the direct sum of the arithmetic sequence equals `n/2 * (2a + (n-1)d)` |
| `Series.ArithmeticFormulasAgree` | app.py:224-226 | `n * (a + (a + (n-1)d)) / 2` equals `n/2 * (2a + (n-1)d)` |
| `Series.ArithmeticSumFirstLast` | app.py:224-226 | for n >= 1 the direct sum equals `n * (first + last) / 2`, with first and last taken from the generated sequence |
| `Series.RatioSeriesOfOne` | app.py:299 | proof step (base case of `Series.GeometricSeriesEmpty`): `a * (1 - 1) / (1 - r)` is 0 |
| `Series.GeometricSeriesEmpty` | app.py:295-299 | the geometric formula gives 0 for zero terms on either branch |
| `Series.GeometricStepAlgebra` | app.py:299 | with `p = r^n`, `a(1-p)/(1-r) + a*p = a(1-r*p)/(1-r)`, the step from n to n+1 terms |
| `Series.GeometricSeriesStep` | app.py:295-300 | the geometric formula for n terms equals the formula for n-1 terms plus term n-1, on both branches |
| `Series.PowOne` | app.py:296 | every power of 1 is 1, so with ratio 1 every term is the first term |
| `Series.GeometricSumClosedForm` | app.py:288-300 | for every n >= 0 the direct sum of the geometric sequence equals `n * a` when r = 1 and `a * (1 - r^n) / (1 - r)` otherwise |
| `Series.GeometricSumRatioOne` | app.py:295-297 | with ratio 1 the direct sum is `n * a` |
| `Generator.CheckTermCount` | app.py:110-116 | no error exactly when `1 <= numTerms <= 1000`; a count of 0 or below gets the not-positive error and a count above 1000 the too-many error |
| `Generator.RequestedTerms` | app.py:119-126 | the sequence of the selected kind; no contract of its own, `Generator.Evaluate` and `Generator.LastTerm` state what it holds |
| `Generator.ReportArithmetic` | app.py:192-226 | for a valid arithmetic request, the formula sum is `n/2 * (2a + (n-1)d)`, the first-and-last-term sum is `n * (a + last) / 2`, and both equal the direct sum of the generated terms; the last term is the final element |
| `Generator.ReportGeometric` | app.py:228-260 | for a valid geometric request, the formula sum is the geometric formula on whichever branch the ratio selects, and it equals the direct sum; there is no first-and-last-term sum; the last term is the final element |
| `Generator.Evaluate` | app.py:107-130 | an invalid term count is rejected with its own error and no sequence; otherwise the report holds exactly `numTerms` terms of the selected kind, the formula sum is the formula of the selected kind, and every sum it shows equals the direct sum |
| `Generator.LastTerm` | app.py:302-309 | the last term of a valid request is `a + (n-1)d` (arithmetic) or `a * r^(n-1)` (geometric) |
| `WorkedExamples.EvenNumbers` | app.py:337 | 2, 4, 6, 8, 10; the direct sum and the formula both give 30 |
| `WorkedExamples.StepOfThree` | app.py:338 | 5, 8, 11, 14, 17 |
| `WorkedExamples.Countdown` | app.py:339 | 10, 7, 4, 1, -2; for the first four terms the direct sum and the formula both give 22 |
| `WorkedExamples.Doubling` | app.py:362 | 2, 4, 8, 16, 32; the direct sum and the `r != 1` formula both give 62 |
| `WorkedExamples.PowersOfThree` | app.py:363 | 1, 3, 9, 27, 81; for the first four terms the direct sum and the `r != 1` formula both give 40 |
| `WorkedExamples.Halving` | app.py:364 | 100, 50, 25, 12.5; for the first three terms the direct sum and the formula both give 175 |
| `WorkedExamples.ConstantRatio` | app.py:359 | ratio 1 gives 5, 5, 5, 5; the direct sum and the `n * a` branch both give 20 |

`Series.AddBothSides` is a proof helper: it adds one term to both sides of
an equation inside the two closed-form inductions.

## Left out

- The Streamlit page: widgets, columns, tabs, metrics, expanders, and the
  markdown and LaTeX text (app.py:48-105, app.py:133-365). It is presentation
  and has no algorithmic content.
- Number formatting with `:g`, and the pandas table (app.py:153-165). These
  are string rendering and a foreign library.
- IEEE floating point: rounding, overflow of `r ** n`, and cancellation near
  r = 1 are not modelled. All arithmetic is exact over `real`, and the
  tolerance test `abs(r - 1) < 1e-10` (app.py:231, app.py:295) is the exact
  test `r == 1.0`. A ratio within 1e-10 of 1 but not equal to 1 therefore
  takes the `r != 1` branch here, where the source takes the `n * a` branch.
- The `except Exception` handler (app.py:314-315). Over exact reals, with the
  count already validated, nothing in the engine raises. In the source,
  `common_ratio ** i` raises `OverflowError` once `|r|^i` leaves the float
  range (for instance r = 10 and 400 terms, app.py:42). The form then shows
  "An error occurred" and no sequence, while `Evaluate` returns `Ok`.
- The `or True` that regenerates on every rerun (app.py:107). The model
  evaluates one request per call.
- The placeholder `common_ratio = 0` / `common_diff = 0` assignments
  (app.py:84, app.py:91). A request carries only the parameter of its kind.
- Generator.ReportGeometric: for ratio 1 and a single term it computes the
  formula value `n * a`, which the source never evaluates in that case
  (app.py:235 shows the direct sum, app.py:287 skips app.py:296). The value
  equals the direct sum, so nothing shown differs.
- The "No sequence generated" warning (app.py:311-312). `Evaluate` proves a
  valid request always yields at least one term, so this branch is
  unreachable after validation.
- The widget's own bounds `min_value=1, max_value=1000` (app.py:96-97). They
  are part of the form, not the engine. The explicit checks at app.py:110-116
  enforce the same bounds and are modelled.
