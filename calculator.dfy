/** The submit handler of varcalc.js (javascript/varcalc.js:486-499 with `calcVol`,
    javascript/varcalc.js:378-423): validate the form, then compute the portfolio variance of the
    selected input type and annualise it. */
module Calculator {
  import opened Parsing
  import opened Validation
  import opened Statistics
  import opened Variance

  /** What pressing submit shows: an error message, a variance, or `NaN` (a series of a single
      observation, whose covariances divide by zero). */
  datatype Outcome = Rejected(error: ValidationError) | Computed(variance: real) | NotANumber

  /** The double sum `calcVol` computes from the parsed fields `p` of the form `f` with the input
      type `dt`, before it is annualised, or the validation error that stops it. */
  function Unannualized(dt: DataType, f: Form, p: Fields): Outcome
    requires WellParsed(p)
  {
    var verdict := Validate(dt, f, p);
    if verdict.Invalid? then Rejected(verdict.error)
    else
      ValidatedShape(dt, f, p);
      var d, w := p.data.value, p.weights.value;
      match dt
      case Series => if |d| < 2 then NotANumber else Computed(QuadForm(w, CovarianceMatrix(d)))
      case Covariance => Computed(QuadForm(w, d))
      case Correlation => Computed(QuadForm(w, CorrToCovar(d, p.vols.value)))
  }

  /** `annualizeVariance` applied to an outcome: an error and `NaN` stay as they are. */
  function AnnualizeOutcome(o: Outcome, a: Annualization): Outcome {
    match o
    case Computed(v) => Computed(Annualize(v, a))
    case other => other
  }

  /** The outcome of submitting the form `f` with the input type `dt` and the annualisation `a`. */
  function PortfolioVariance(dt: DataType, f: Form, a: Annualization): Outcome {
    AnnualizeOutcome(Unannualized(dt, f, ParseForm(f)), a)
  }

  /** javascript/varcalc.js:486-499: the form is validated, and only a valid form is computed. */
  method Submit(dt: DataType, f: Form, a: Annualization) returns (outcome: Outcome)
    ensures outcome == PortfolioVariance(dt, f, a)
  {
    var verdict := ValidData(dt, f);
    if verdict.Invalid? {
      return Rejected(verdict.error);
    }
    outcome := CalcVol(dt, f, a);
  }

  /** javascript/varcalc.js:378-423: the fields parsed again, the double sum of the input type,
      then the annualisation. */
  method CalcVol(dt: DataType, f: Form, a: Annualization) returns (outcome: Outcome)
    requires ValidData(dt, f) == Valid
    ensures outcome == PortfolioVariance(dt, f, a)
  {
    ghost var p := ParseForm(f);
    assert Validate(dt, f, p) == Valid;
    ValidatedShape(dt, f, p);
    var data := ParseMatrix(f.data);
    var weights := ParseList(f.weights);
    assert data == p.data && weights == p.weights;
    var d, w := data.value, weights.value;
    var o: Outcome;
    match dt {
      case Series =>
        o := SeriesSum(d, w);
      case Covariance =>
        o := CovarianceSum(d, w);
      case Correlation =>
        var vols := ParseList(f.vols);
        assert vols == p.vols;
        o := CorrelationSum(d, w, vols.value);
    }
    assert Unannualized(dt, f, p) == o;
    outcome := AnnualizeOutcome(o, a);
  }

  /** The series branch of `calcVol`: the covariance matrix of the series, then the double sum;
      a single observation gives `NaN`. */
  method SeriesSum(d: seq<seq<real>>, w: seq<real>) returns (o: Outcome)
    requires |d| > 0 && |w| > 0 && |w| == |d[0]| && AllRowsEqualLength(d)
    ensures o == if |d| < 2 then NotANumber else Computed(QuadForm(w, CovarianceMatrix(d)))
  {
    if |d| < 2 {
      return NotANumber;
    }
    var covar := CalcCovarMatrix(d);
    var variance := WeightedSum(w, covar);
    o := Computed(variance);
  }

  /** The covariance branch of `calcVol`: the double sum of the matrix itself. */
  method CovarianceSum(d: seq<seq<real>>, w: seq<real>) returns (o: Outcome)
    requires |d| > 0 && |w| == |d[0]| && MatrixSquareAndComplete(d)
    ensures o == Computed(QuadForm(w, d))
  {
    var variance := WeightedSum(w, d);
    o := Computed(variance);
  }

  /** The correlation branch of `calcVol`: the double sum with the volatilities. */
  method CorrelationSum(d: seq<seq<real>>, w: seq<real>, v: seq<real>) returns (o: Outcome)
    requires |d| > 0 && |w| == |d[0]| && |v| == |d| && MatrixSquareAndComplete(d)
    ensures o == Computed(QuadForm(w, CorrToCovar(d, v)))
  {
    var variance := WeightedCorrelationSum(w, d, v);
    o := Computed(variance);
  }

  // ---------------------------------------------------------------------------------------------
  // Properties

  /** Submitting shows an error exactly when validation fails, and then the first failure. */
  lemma RejectedIffInvalid(dt: DataType, f: Form, a: Annualization)
    ensures PortfolioVariance(dt, f, a).Rejected? <==> ValidData(dt, f).Invalid?
    ensures PortfolioVariance(dt, f, a).Rejected? ==>
      PortfolioVariance(dt, f, a).error == ValidData(dt, f).error
  {
  }

  /** `NaN` is shown exactly for a valid series of one observation. */
  lemma NotANumberIffOneObservation(dt: DataType, f: Form, a: Annualization)
    ensures PortfolioVariance(dt, f, a) == NotANumber <==>
      dt == Series && ValidData(Series, f) == Valid && |ParsedMatrix(f.data).value| == 1
  {
  }

  /** Annualising acts on the outcome shown without annualisation, and on nothing else. */
  lemma AnnualizedAfterSum(dt: DataType, f: Form, a: Annualization)
    ensures PortfolioVariance(dt, f, a) == AnnualizeOutcome(PortfolioVariance(dt, f, NotAnnualized), a)
  {
    var o := Unannualized(dt, f, ParseForm(f));
    AnnualizeOutcomePlain(o);
  }

  /** A series form that passes validation shows the quadratic form of the weights with the
      sample covariance matrix of the series. */
  lemma ValidSeriesOutcome(f: Form, d: seq<seq<real>>, w: seq<real>)
    requires f.data != "" && f.weights != ""
    requires ParsedMatrix(f.data) == Ok(d) && ParsedList(f.weights) == Ok(w)
    requires |d| >= 2 && AllRowsEqualLength(d)
    requires ValsBoundedBy(w, 0.0, AtMost(1.0)) && WeightsSumToOne(w) && |w| == |d[0]|
    ensures HasColumns(d, |d[0]|) && SquareOf(CovarianceMatrix(d), |w|)
    ensures PortfolioVariance(Series, f, NotAnnualized) == Computed(QuadForm(w, CovarianceMatrix(d)))
  {
    var p := ParseForm(f);
    assert ValidWeights(p) == Valid;
    assert Validate(Series, f, p) == Valid;
  }

  /** The series [1, 2], [3, 4], [5, 6] with the weights [0.5, 0.5]: every covariance is 4, so
      the portfolio variance is 4. */
  lemma SeriesExample(f: Form)
    requires f == Form("1,2\n3,4\n5,6", "0.5,0.5", "")
    ensures PortfolioVariance(Series, f, NotAnnualized) == Computed(4.0)
  {
    var d, w := [[1.0, 2.0], [3.0, 4.0], [5.0, 6.0]], [0.5, 0.5];
    ExampleShape(d, w);
    ThreeRowsExample();
    HalvesList();
    ValidSeriesOutcome(f, d, w);
    CovarianceExample();
    UniformKernelExample();
  }

  lemma ExampleShape(d: seq<seq<real>>, w: seq<real>)
    requires d == [[1.0, 2.0], [3.0, 4.0], [5.0, 6.0]] && w == [0.5, 0.5]
    ensures AllRowsEqualLength(d) && ValsBoundedBy(w, 0.0, AtMost(1.0)) && WeightsSumToOne(w)
  {
    assert forall k :: 0 <= k < |d| ==> |d[k]| == 2;
    SumToleranceExamples();
  }

  lemma UniformKernelExample()
    ensures QuadForm([0.5, 0.5], [[4.0, 4.0], [4.0, 4.0]]) == 4.0
  {
    var w, k := [0.5, 0.5], [[4.0, 4.0], [4.0, 4.0]];
    assert RowTerms(w, k, 0, 2) == 2.0 && RowTerms(w, k, 1, 2) == 2.0;
  }

  lemma AnnualizeOutcomePlain(o: Outcome)
    ensures AnnualizeOutcome(o, NotAnnualized) == o
  {
  }

  /** Annualising multiplies a variance by the period factor, and changes neither an error nor
      `NaN`. */
  lemma AnnualizeOutcomeScales(o: Outcome, period: Periodicity)
    ensures o.Computed? ==>
      AnnualizeOutcome(o, Annualized(period)) == Computed(o.variance * (PeriodFactor(period) as real))
    ensures !o.Computed? ==> AnnualizeOutcome(o, Annualized(period)) == o
  {
  }
}
