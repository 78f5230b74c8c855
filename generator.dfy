/**
 One request to the sequence generator: the term count is validated, the
 sequence of the selected kind is generated, and the report shown to the
 user is assembled from it: the terms, the last term, the sum by direct
 addition, the sum by the closed-form formula and, for an arithmetic
 sequence, the alternative first-and-last-term sum.
 */
module Generator {
  import opened Sequences
  import opened Series

  /** The largest number of terms a request may ask for. */
  const MaxTerms: int := 1000

  datatype SequenceKind = Arithmetic | Geometric

  /** The user's input: the kind, the first term, the difference or ratio, and the term count. */
  datatype Request = Request(kind: SequenceKind, firstTerm: real, param: real, numTerms: int)

  /** Why a term count is rejected: it is not positive, or it exceeds `MaxTerms`. */
  datatype TermCountError = NotPositive | TooMany

  datatype Option<T> = None | Some(value: T)

  datatype Result<T> = Ok(value: T) | Err(error: TermCountError)

  /** What the generator shows for a valid request. */
  datatype Report = Report(
    terms: seq<real>,
    lastTerm: real,
    directSum: real,
    formulaSum: real,
    firstLastSum: Option<real>)

  /** The term-count check: no error exactly when `1 <= numTerms <= MaxTerms`, the lower bound checked first. */
  function CheckTermCount(numTerms: int): (err: Option<TermCountError>)
    ensures err == None <==> 1 <= numTerms <= MaxTerms
    ensures err == Some(NotPositive) <==> numTerms <= 0
    ensures err == Some(TooMany) <==> numTerms > MaxTerms
  {
    if numTerms <= 0 then Some(NotPositive)
    else if numTerms > MaxTerms then Some(TooMany)
    else None
  }

  /** The terms a request asks for, as the specification functions define them. */
  function RequestedTerms(req: Request): seq<real>
  {
    match req.kind
    case Arithmetic => ArithmeticSequence(req.firstTerm, req.param, req.numTerms)
    case Geometric => GeometricSequence(req.firstTerm, req.param, req.numTerms)
  }

  /** The sums reported for an arithmetic sequence: the formula and the first-and-last-term sums match the direct sum. */
  method ReportArithmetic(a: real, d: real, n: nat) returns (rep: Report)
    requires n >= 1
    ensures rep.terms == ArithmeticSequence(a, d, n)
    ensures |rep.terms| == n && rep.lastTerm == rep.terms[n - 1]
    ensures rep.directSum == Sum(rep.terms)
    ensures rep.formulaSum == ArithmeticSeriesSum(a, d, n) == rep.directSum
    ensures rep.firstLastSum == Some(FirstLastSeriesSum(n, a, rep.lastTerm))
    ensures rep.firstLastSum == Some(rep.directSum)
  {
    var terms := GenerateArithmetic(a, d, n);
    var formulaSum := ArithmeticSeriesSum(a, d, n);
    var firstLastSum := FirstLastSeriesSum(n, a, terms[n - 1]);
    ArithmeticSumClosedForm(a, d, n);
    ArithmeticSumFirstLast(a, d, n);
    rep := Report(terms, terms[n - 1], Sum(terms), formulaSum, Some(firstLastSum));
  }

  /** The sums reported for a geometric sequence: the formula sum matches the direct sum. */
  method ReportGeometric(a: real, r: real, n: nat) returns (rep: Report)
    requires n >= 1
    ensures rep.terms == GeometricSequence(a, r, n)
    ensures |rep.terms| == n && rep.lastTerm == rep.terms[n - 1]
    ensures rep.directSum == Sum(rep.terms)
    ensures rep.formulaSum == GeometricSeriesSum(a, r, n) == rep.directSum
    ensures rep.firstLastSum == None
  {
    var terms := GenerateGeometric(a, r, n);
    var formulaSum := GeometricSeriesSum(a, r, n);
    GeometricSumClosedForm(a, r, n);
    rep := Report(terms, terms[n - 1], Sum(terms), formulaSum, None);
  }

  /** Handles one request: rejects a bad term count, otherwise generates the sequence and its sums. */
  method Evaluate(req: Request) returns (res: Result<Report>)
    ensures res.Err? <==> !(1 <= req.numTerms <= MaxTerms)
    ensures res.Err? ==> res.error == (if req.numTerms <= 0 then NotPositive else TooMany)
    ensures res.Ok? ==>
      && res.value.terms == RequestedTerms(req)
      && |res.value.terms| == req.numTerms
      && res.value.lastTerm == res.value.terms[req.numTerms - 1]
      && res.value.directSum == Sum(res.value.terms)
      && res.value.formulaSum == res.value.directSum
      && res.value.formulaSum == (match req.kind
           case Arithmetic => ArithmeticSeriesSum(req.firstTerm, req.param, req.numTerms)
           case Geometric => GeometricSeriesSum(req.firstTerm, req.param, req.numTerms))
      && (res.value.firstLastSum.Some? <==> req.kind == Arithmetic)
      && (res.value.firstLastSum.Some? ==> res.value.firstLastSum.value == res.value.directSum)
  {
    var err := CheckTermCount(req.numTerms);
    if err.Some? {
      return Err(err.value);
    }
    var rep;
    if req.kind == Arithmetic {
      rep := ReportArithmetic(req.firstTerm, req.param, req.numTerms);
    } else {
      rep := ReportGeometric(req.firstTerm, req.param, req.numTerms);
    }
    res := Ok(rep);
  }

  /** The last term of a valid arithmetic request is `a + (n-1)d`; of a geometric one, `a * r^(n-1)`. */
  lemma {:induction false} LastTerm(req: Request)
    requires 1 <= req.numTerms <= MaxTerms
    ensures req.kind == Arithmetic ==>
      RequestedTerms(req)[req.numTerms - 1] == req.firstTerm + (req.numTerms - 1) as real * req.param
    ensures req.kind == Geometric ==>
      RequestedTerms(req)[req.numTerms - 1] == req.firstTerm * Pow(req.param, req.numTerms - 1)
  {
    if req.kind == Arithmetic {
      ArithmeticEnds(req.firstTerm, req.param, req.numTerms);
    } else {
      GeometricEnds(req.firstTerm, req.param, req.numTerms);
    }
  }
}
