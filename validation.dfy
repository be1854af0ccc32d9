/** The validation predicates and the short-circuit chain of varcalc.js
    (javascript/varcalc.js:89-313).  The three text areas of the form are a `Form` value; the chain
    is a function from the selected input type and the form to the first failure, if any. */
module Validation {
  import opened Numerals
  import opened Parsing

  /** The three input types of the form's radio buttons. */
  datatype DataType = Series | Covariance | Correlation

  /** The three text areas. */
  datatype Field = Data | Weights | Vols

  /** The error messages the chain prints, one constructor per message.  `CorrListThrows` stands
      for the TypeError the correlation bound check throws when the whole data text does not parse
      as one list (it calls `every` on `undefined`). */
  datatype ValidationError =
    | Blank(blankField: Field)
    | FormatError(badField: Field)
    | RaggedSeries
    | NonSquare
    | CorrListThrows
    | CorrOutOfBounds
    | WeightsOutOfBounds
    | WeightsNotNormalized
    | WeightCountMismatch
    | NegativeVol
    | VolCountMismatch

  datatype Verdict = Valid | Invalid(error: ValidationError)

  /** The raw contents of the data, weights and volatilities text areas. */
  datatype Form = Form(data: string, weights: string, vols: string)

  /** What the parsers make of the form: `parseMatrix` of the data, `parseList` of the whole data
      text (read by the correlation bound check), of the weights and of the volatilities. */
  datatype Fields = Fields(data: Parsed<seq<seq<real>>>, entries: Parsed<seq<real>>,
                           weights: Parsed<seq<real>>, vols: Parsed<seq<real>>)

  predicate WellParsed(p: Fields) {
    MatrixShape(p.data) && ListShape(p.entries) && ListShape(p.weights) && ListShape(p.vols)
  }

  /** The fields of a form.  The parsers are pure, so parsing each field once gives what the
      source obtains by parsing a field again at each use; and what they return has the shape
      the predicates rely on (`reduce` and `data[0]` are never applied to an empty list). */
  function ParseForm(f: Form): (p: Fields)
    ensures WellParsed(p)
  {
    Fields(ParsedMatrix(f.data), ParsedList(f.data), ParsedList(f.weights), ParsedList(f.vols))
  }

  /** An upper bound; the volatility check passes `Infinity`. */
  datatype Bound = AtMost(hi: real) | Unbounded

  predicate Below(x: real, upper: Bound) {
    upper.Unbounded? || x <= upper.hi
  }

  // ---------------------------------------------------------------------------------------------
  // The predicates (javascript/varcalc.js:89-139)

  /** `valsBoundedBy`: every value lies in the closed interval from `lower` to `upper`. */
  predicate ValsBoundedBy(xs: seq<real>, lower: real, upper: Bound) {
    forall k :: 0 <= k < |xs| ==> lower <= xs[k] && Below(xs[k], upper)
  }

  /** `weights.reduce((acc, val) => acc + val)`: the values added from left to right. */
  function Sum(xs: seq<real>): real {
    if xs == [] then 0.0 else Sum(xs[..|xs| - 1]) + xs[|xs| - 1]
  }

  const SumLow: real := 0.99999999
  const SumHigh: real := 1.00000001

  /** `weightsSumToOne`; `reduce` with no initial value needs at least one weight. */
  predicate WeightsSumToOne(w: seq<real>): (res: bool)
    requires |w| > 0
    ensures res <==> -0.00000001 <= Sum(w) - 1.0 <= 0.00000001
  {
    SumLow <= Sum(w) <= SumHigh
  }

  /** `allRowsEqualLength`: every row is as long as the first. */
  predicate AllRowsEqualLength(m: seq<seq<real>>): (res: bool)
    requires |m| > 0
    ensures res <==> forall i, j :: 0 <= i < |m| && 0 <= j < |m| ==> |m[i]| == |m[j]|
  {
    forall k :: 0 <= k < |m| ==> |m[k]| == |m[0]|
  }

  /** `matrixSquareAndComplete`: every row is as long as the matrix is high and as the first row. */
  predicate MatrixSquareAndComplete(m: seq<seq<real>>): (res: bool)
    requires |m| > 0
    ensures res <==> forall k :: 0 <= k < |m| ==> |m[k]| == |m|
  {
    forall k :: 0 <= k < |m| ==> |m[k]| == |m| && |m[k]| == |m[0]|
  }

  /** `sameCountOfWeightsAndVariables`: as many values as the first row has entries. */
  predicate SameCount(d: seq<seq<real>>, w: seq<real>)
    requires |d| > 0
  {
    |d[0]| == |w|
  }

  // ---------------------------------------------------------------------------------------------
  // The chain (javascript/varcalc.js:145-313)

  /** `checkBlanks`: data, then weights, then (correlation only) volatilities must be non-empty. */
  function CheckBlanks(dt: DataType, f: Form): (r: Verdict)
    ensures r == Valid <==> f.data != "" && f.weights != "" && (dt == Correlation ==> f.vols != "")
    ensures r.Invalid? ==> r.error.Blank?
    ensures r == Invalid(Blank(Vols)) ==> dt == Correlation
  {
    if f.data == "" then Invalid(Blank(Data))
    else if f.weights == "" then Invalid(Blank(Weights))
    else if dt == Correlation && f.vols == "" then Invalid(Blank(Vols))
    else Valid
  }

  /** `validWeights`: format, bounds, sum, then the count against the first row of the data
      (which it parses again; it is only reached once the data parsed). */
  function ValidWeights(p: Fields): (r: Verdict)
    requires WellParsed(p) && p.data.Ok?
    ensures r == Valid <==>
      p.weights.Ok? && ValsBoundedBy(p.weights.value, 0.0, AtMost(1.0)) &&
      WeightsSumToOne(p.weights.value) && |p.weights.value| == |p.data.value[0]|
    ensures r.Invalid? ==> r.error in WeightErrors()
  {
    match p.weights
    case Ok(w) =>
      if !ValsBoundedBy(w, 0.0, AtMost(1.0)) then Invalid(WeightsOutOfBounds)
      else if !WeightsSumToOne(w) then Invalid(WeightsNotNormalized)
      else if !SameCount(p.data.value, w) then Invalid(WeightCountMismatch)
      else Valid
    case _ => Invalid(FormatError(Weights))
  }

  /** The messages `validWeights` can print. */
  function WeightErrors(): set<ValidationError> {
    {FormatError(Weights), WeightsOutOfBounds, WeightsNotNormalized, WeightCountMismatch}
  }

  /** `validSeries`. */
  function ValidSeries(p: Fields): (r: Verdict)
    requires WellParsed(p)
    ensures r == Valid <==>
      p.data.Ok? && AllRowsEqualLength(p.data.value) && ValidWeights(p) == Valid
    ensures r.Invalid? ==> r.error in {FormatError(Data), RaggedSeries} + WeightErrors()
  {
    match p.data
    case Ok(series) =>
      if !AllRowsEqualLength(series) then Invalid(RaggedSeries) else ValidWeights(p)
    case _ => Invalid(FormatError(Data))
  }

  /** `validCovar`. */
  function ValidCovar(p: Fields): (r: Verdict)
    requires WellParsed(p)
    ensures r == Valid <==>
      p.data.Ok? && MatrixSquareAndComplete(p.data.value) && ValidWeights(p) == Valid
    ensures r.Invalid? ==> r.error in {FormatError(Data), NonSquare} + WeightErrors()
  {
    match p.data
    case Ok(covar) =>
      if !MatrixSquareAndComplete(covar) then Invalid(NonSquare) else ValidWeights(p)
    case _ => Invalid(FormatError(Data))
  }

  /** `validCorr`: the bound check reads the whole data text as one list; then the weights and
      the volatilities are checked. */
  function ValidCorr(p: Fields): (r: Verdict)
    requires WellParsed(p)
    ensures r == Valid <==>
      p.data.Ok? && MatrixSquareAndComplete(p.data.value) &&
      p.entries.Ok? && ValsBoundedBy(p.entries.value, -1.0, AtMost(1.0)) &&
      ValidWeights(p) == Valid && ValidVols(p.data.value, p.vols) == Valid
    ensures r.Invalid? ==> !r.error.Blank? && !r.error.RaggedSeries?
  {
    match p.data
    case Ok(corr) =>
      if !MatrixSquareAndComplete(corr) then Invalid(NonSquare)
      else
        (match p.entries
         case Ok(entries) =>
           if !ValsBoundedBy(entries, -1.0, AtMost(1.0)) then Invalid(CorrOutOfBounds)
           else if ValidWeights(p).Invalid? then ValidWeights(p)
           else ValidVols(corr, p.vols)
         case _ => Invalid(CorrListThrows))
    case _ => Invalid(FormatError(Data))
  }

  /** The volatility part of `validCorr`. */
  function ValidVols(corr: seq<seq<real>>, vols: Parsed<seq<real>>): (r: Verdict)
    requires |corr| > 0
    ensures r == Valid <==>
      vols.Ok? && (forall k :: 0 <= k < |vols.value| ==> 0.0 <= vols.value[k]) &&
      |vols.value| == |corr[0]|
    ensures r.Invalid? ==> r.error in {FormatError(Vols), NegativeVol, VolCountMismatch}
  {
    match vols
    case Ok(v) =>
      if !ValsBoundedBy(v, 0.0, Unbounded) then Invalid(NegativeVol)
      else if !SameCount(corr, v) then Invalid(VolCountMismatch)
      else Valid
    case _ => Invalid(FormatError(Vols))
  }

  /** `validData` on a form whose fields parse to `p`: the blank checks, then the checks of the
      selected input type. */
  function Validate(dt: DataType, f: Form, p: Fields): (r: Verdict)
    requires WellParsed(p)
    ensures CheckBlanks(dt, f).Invalid? ==> r == CheckBlanks(dt, f)
    ensures r.Invalid? && r.error.Blank? ==> r == CheckBlanks(dt, f)
    ensures r == Valid ==> CheckBlanks(dt, f) == Valid && p.data.Ok? && p.weights.Ok?
  {
    if CheckBlanks(dt, f).Invalid? then CheckBlanks(dt, f)
    else
      match dt
      case Series => ValidSeries(p)
      case Covariance => ValidCovar(p)
      case Correlation => ValidCorr(p)
  }

  /** `validData`. */
  function ValidData(dt: DataType, f: Form): (r: Verdict)
    ensures r == Valid ==>
      f.data != "" && f.weights != "" && ParsedMatrix(f.data).Ok? && ParsedList(f.weights).Ok?
  {
    Validate(dt, f, ParseForm(f))
  }

  // ---------------------------------------------------------------------------------------------
  // A reference statement of the chain: a fixed list of rules, the first failing one reported

  datatype Rule =
    | DataPresent | WeightsPresent | VolsPresent
    | DataParses | RowsEqual | Square | EntriesParse | EntriesBounded
    | WeightsParse | WeightsBounded | WeightsSum | WeightsCount
    | VolsParse | VolsNonNegative | VolsCount

  /** The rules in the order the source checks them. */
  function Order(dt: DataType): seq<Rule> {
    match dt
    case Series =>
      [DataPresent, WeightsPresent, DataParses, RowsEqual] + WeightRules()
    case Covariance =>
      [DataPresent, WeightsPresent, DataParses, Square] + WeightRules()
    case Correlation =>
      CorrelationRules() + WeightRules() + VolRules()
  }

  function CorrelationRules(): seq<Rule> {
    [DataPresent, WeightsPresent, VolsPresent, DataParses, Square, EntriesParse, EntriesBounded]
  }

  function WeightRules(): seq<Rule> {
    [WeightsParse, WeightsBounded, WeightsSum, WeightsCount]
  }

  function VolRules(): seq<Rule> {
    [VolsParse, VolsNonNegative, VolsCount]
  }

  /** What each rule demands of the form and its fields, on its own. */
  predicate Holds(rule: Rule, f: Form, p: Fields)
    requires WellParsed(p)
  {
    var d, w, v := p.data, p.weights, p.vols;
    match rule
    case DataPresent => f.data != ""
    case WeightsPresent => f.weights != ""
    case VolsPresent => f.vols != ""
    case DataParses => d.Ok?
    case RowsEqual => d.Ok? ==> AllRowsEqualLength(d.value)
    case Square => d.Ok? ==> MatrixSquareAndComplete(d.value)
    case EntriesParse => p.entries.Ok?
    case EntriesBounded => p.entries.Ok? ==> ValsBoundedBy(p.entries.value, -1.0, AtMost(1.0))
    case WeightsParse => w.Ok?
    case WeightsBounded => w.Ok? ==> ValsBoundedBy(w.value, 0.0, AtMost(1.0))
    case WeightsSum => w.Ok? ==> WeightsSumToOne(w.value)
    case WeightsCount => d.Ok? && w.Ok? ==> SameCount(d.value, w.value)
    case VolsParse => v.Ok?
    case VolsNonNegative => v.Ok? ==> ValsBoundedBy(v.value, 0.0, Unbounded)
    case VolsCount => d.Ok? && v.Ok? ==> SameCount(d.value, v.value)
  }

  /** The message a failing rule prints. */
  function Violation(rule: Rule): ValidationError {
    match rule
    case DataPresent => Blank(Data)
    case WeightsPresent => Blank(Weights)
    case VolsPresent => Blank(Vols)
    case DataParses => FormatError(Data)
    case RowsEqual => RaggedSeries
    case Square => NonSquare
    case EntriesParse => CorrListThrows
    case EntriesBounded => CorrOutOfBounds
    case WeightsParse => FormatError(Weights)
    case WeightsBounded => WeightsOutOfBounds
    case WeightsSum => WeightsNotNormalized
    case WeightsCount => WeightCountMismatch
    case VolsParse => FormatError(Vols)
    case VolsNonNegative => NegativeVol
    case VolsCount => VolCountMismatch
  }

  /** The verdict of checking `rules` in order and stopping at the first that fails. */
  function FirstViolation(rules: seq<Rule>, f: Form, p: Fields): Verdict
    requires WellParsed(p)
  {
    if rules == [] then Valid
    else if !Holds(rules[0], f, p) then Invalid(Violation(rules[0]))
    else FirstViolation(rules[1..], f, p)
  }

  // ---------------------------------------------------------------------------------------------
  // Properties of the predicates

  /** A square and complete matrix is N x N, N being its number of rows; conversely every N x N
      matrix passes. */
  lemma SquareIsNByN(m: seq<seq<real>>)
    requires |m| > 0
    ensures MatrixSquareAndComplete(m) <==> forall k :: 0 <= k < |m| ==> |m[k]| == |m|
    ensures MatrixSquareAndComplete(m) ==> AllRowsEqualLength(m)
  {
  }

  /** The bound check holds exactly when every value of the list, wherever it occurs, is in
      bounds. */
  lemma BoundedIffMembersBounded(xs: seq<real>, lower: real, upper: Bound)
    ensures ValsBoundedBy(xs, lower, upper) <==> forall x :: x in xs ==> lower <= x && Below(x, upper)
  {
    if ValsBoundedBy(xs, lower, upper) {
      forall x | x in xs
        ensures lower <= x && Below(x, upper)
      {
        var k :| 0 <= k < |xs| && xs[k] == x;
      }
    } else {
      var k :| 0 <= k < |xs| && !(lower <= xs[k] && Below(xs[k], upper));
      assert xs[k] in xs;
    }
  }

  /** With the upper bound `Infinity`, the bound check only asks for values of at least `lower`. */
  lemma UnboundedIsLowerBound(xs: seq<real>, lower: real)
    ensures ValsBoundedBy(xs, lower, Unbounded) <==> forall k :: 0 <= k < |xs| ==> lower <= xs[k]
  {
  }

  /** The sum over one more value. */
  lemma SumSnoc(xs: seq<real>, x: real)
    ensures Sum(xs + [x]) == Sum(xs) + x
  {
    assert (xs + [x])[..|xs|] == xs;
  }

  /** Weights summing to 0.5 or to 1.5 are rejected; weights summing to 1 are accepted. */
  lemma SumToleranceExamples()
    ensures WeightsSumToOne([0.5, 0.5]) && WeightsSumToOne([0.25, 0.25, 0.5])
    ensures !WeightsSumToOne([0.5]) && !WeightsSumToOne([0.5, 1.0])
  {
    SumSnoc([], 0.5);
    SumSnoc([0.5], 0.5);
    SumSnoc([], 0.25);
    SumSnoc([0.25], 0.25);
    SumSnoc([0.25, 0.25], 0.5);
    SumSnoc([0.5], 1.0);
  }

  // ---------------------------------------------------------------------------------------------
  // The chain reports the first rule of its order that fails

  /** All rules hold exactly when the check of the list passes. */
  lemma {:induction false} FirstViolationValid(rules: seq<Rule>, f: Form, p: Fields)
    requires WellParsed(p)
    ensures FirstViolation(rules, f, p) == Valid <==>
      forall i :: 0 <= i < |rules| ==> Holds(rules[i], f, p)
  {
    if rules != [] {
      FirstViolationValid(rules[1..], f, p);
      assert forall i :: 1 <= i < |rules| ==> rules[i] == rules[1..][i - 1];
    }
  }

  /** When rule `i` is the first that fails, its message is the one reported. */
  lemma {:induction false} FirstViolationReports(rules: seq<Rule>, f: Form, p: Fields, i: nat)
    requires WellParsed(p)
    requires i < |rules| && !Holds(rules[i], f, p)
    requires forall j :: 0 <= j < i ==> Holds(rules[j], f, p)
    ensures FirstViolation(rules, f, p) == Invalid(Violation(rules[i]))
  {
    if i > 0 {
      assert Holds(rules[0], f, p);
      assert forall j :: 0 <= j < i - 1 ==> rules[1..][j] == rules[j + 1];
      FirstViolationReports(rules[1..], f, p, i - 1);
    }
  }

  /** Checking two lists one after the other. */
  lemma {:induction false} FirstViolationAppend(r1: seq<Rule>, r2: seq<Rule>, f: Form, p: Fields)
    requires WellParsed(p)
    ensures FirstViolation(r1 + r2, f, p) ==
      if FirstViolation(r1, f, p).Invalid? then FirstViolation(r1, f, p) else FirstViolation(r2, f, p)
  {
    if r1 == [] {
      assert r1 + r2 == r2;
    } else {
      assert (r1 + r2)[1..] == r1[1..] + r2;
      FirstViolationAppend(r1[1..], r2, f, p);
    }
  }

  /** Checking a list that starts with `r`. */
  lemma FirstViolationCons(r: Rule, rest: seq<Rule>, f: Form, p: Fields)
    requires WellParsed(p)
    ensures FirstViolation([r] + rest, f, p) ==
      if !Holds(r, f, p) then Invalid(Violation(r)) else FirstViolation(rest, f, p)
  {
    assert ([r] + rest)[1..] == rest;
  }

  /** Checking the rules `a`, `b`, `c`, `d` in this order. */
  lemma FirstViolationFour(a: Rule, b: Rule, c: Rule, d: Rule, f: Form, p: Fields)
    requires WellParsed(p)
    ensures FirstViolation([a, b, c, d], f, p) ==
      if !Holds(a, f, p) then Invalid(Violation(a))
      else if !Holds(b, f, p) then Invalid(Violation(b))
      else if !Holds(c, f, p) then Invalid(Violation(c))
      else if !Holds(d, f, p) then Invalid(Violation(d))
      else Valid
  {
    FirstViolationCons(d, [], f, p);
    FirstViolationCons(c, [d], f, p);
    FirstViolationCons(b, [c, d], f, p);
    FirstViolationCons(a, [b, c, d], f, p);
    assert [d] + [] == [d] && [c] + [d] == [c, d] && [b] + [c, d] == [b, c, d];
    assert [a] + [b, c, d] == [a, b, c, d];
  }

  /** `validWeights` checks the weight rules in order. */
  lemma WeightRulesAreValidWeights(f: Form, p: Fields)
    requires WellParsed(p) && p.data.Ok?
    ensures FirstViolation(WeightRules(), f, p) == ValidWeights(p)
  {
    FirstViolationFour(WeightsParse, WeightsBounded, WeightsSum, WeightsCount, f, p);
  }

  /** The volatility part of `validCorr` checks the volatility rules in order. */
  lemma VolRulesAreValidVols(f: Form, p: Fields)
    requires WellParsed(p) && p.data.Ok?
    ensures FirstViolation(VolRules(), f, p) == ValidVols(p.data.value, p.vols)
  {
    FirstViolationCons(VolsCount, [], f, p);
    FirstViolationCons(VolsNonNegative, [VolsCount], f, p);
    FirstViolationCons(VolsParse, [VolsNonNegative, VolsCount], f, p);
    assert [VolsCount] + [] == [VolsCount];
    assert [VolsNonNegative] + [VolsCount] == [VolsNonNegative, VolsCount];
    assert [VolsParse] + [VolsNonNegative, VolsCount] == VolRules();
  }

  /** The chain is the check of `Order(dt)`: it reports the first rule of the source's order
      that fails, and passes when every rule holds. */
  lemma ChainMatchesOrder(dt: DataType, f: Form, p: Fields)
    requires WellParsed(p)
    ensures Validate(dt, f, p) == FirstViolation(Order(dt), f, p)
  {
    match dt
    case Series => SeriesOrder(f, p);
    case Covariance => CovarianceOrder(f, p);
    case Correlation => CorrelationOrder(f, p);
  }

  lemma SeriesOrder(f: Form, p: Fields)
    requires WellParsed(p)
    ensures Validate(Series, f, p) == FirstViolation(Order(Series), f, p)
  {
    var head := [DataPresent, WeightsPresent, DataParses, RowsEqual];
    FirstViolationAppend(head, WeightRules(), f, p);
    FirstViolationFour(DataPresent, WeightsPresent, DataParses, RowsEqual, f, p);
    if p.data.Ok? {
      WeightRulesAreValidWeights(f, p);
    }
  }

  lemma CovarianceOrder(f: Form, p: Fields)
    requires WellParsed(p)
    ensures Validate(Covariance, f, p) == FirstViolation(Order(Covariance), f, p)
  {
    var head := [DataPresent, WeightsPresent, DataParses, Square];
    FirstViolationAppend(head, WeightRules(), f, p);
    FirstViolationFour(DataPresent, WeightsPresent, DataParses, Square, f, p);
    if p.data.Ok? {
      WeightRulesAreValidWeights(f, p);
    }
  }

  lemma CorrelationOrder(f: Form, p: Fields)
    requires WellParsed(p)
    ensures Validate(Correlation, f, p) == FirstViolation(Order(Correlation), f, p)
  {
    FirstViolationAppend(CorrelationRules() + WeightRules(), VolRules(), f, p);
    FirstViolationAppend(CorrelationRules(), WeightRules(), f, p);
    CorrelationHead(f, p);
    if p.data.Ok? {
      WeightRulesAreValidWeights(f, p);
      VolRulesAreValidVols(f, p);
    }
  }

  /** The checks of `validCorr` before the weights. */
  lemma CorrelationHead(f: Form, p: Fields)
    requires WellParsed(p)
    ensures FirstViolation(CorrelationRules(), f, p) ==
      if CheckBlanks(Correlation, f).Invalid? then CheckBlanks(Correlation, f)
      else if !p.data.Ok? then Invalid(FormatError(Data))
      else if !MatrixSquareAndComplete(p.data.value) then Invalid(NonSquare)
      else if !p.entries.Ok? then Invalid(CorrListThrows)
      else if !ValsBoundedBy(p.entries.value, -1.0, AtMost(1.0)) then Invalid(CorrOutOfBounds)
      else Valid
  {
    var blanks := [DataPresent, WeightsPresent, VolsPresent];
    var rest := [DataParses, Square, EntriesParse, EntriesBounded];
    assert CorrelationRules() == blanks + rest;
    FirstViolationAppend(blanks, rest, f, p);
    FirstViolationFour(DataParses, Square, EntriesParse, EntriesBounded, f, p);
    FirstViolationCons(VolsPresent, [], f, p);
    FirstViolationCons(WeightsPresent, [VolsPresent], f, p);
    FirstViolationCons(DataPresent, [WeightsPresent, VolsPresent], f, p);
    assert [VolsPresent] + [] == [VolsPresent];
    assert [WeightsPresent] + [VolsPresent] == [WeightsPresent, VolsPresent];
    assert [DataPresent] + [WeightsPresent, VolsPresent] == blanks;
  }

  /** `validData` reports the first rule of the source's order that the form breaks. */
  lemma ValidDataMatchesOrder(dt: DataType, f: Form)
    ensures ValidData(dt, f) == FirstViolation(Order(dt), f, ParseForm(f))
  {
    ChainMatchesOrder(dt, f, ParseForm(f));
  }

  // ---------------------------------------------------------------------------------------------
  // Consequences of the order

  /** The blank check of the data comes first: a blank data field is the only error reported,
      whatever the other fields hold. */
  lemma BlankDataReportedFirst(dt: DataType, f: Form)
    requires f.data == ""
    ensures ValidData(dt, f) == Invalid(Blank(Data))
  {
  }

  /** A ragged series is reported as such, even when the weight count does not match either. */
  lemma RaggedReportedBeforeWeights(f: Form)
    requires f.data != "" && f.weights != ""
    requires ParsedMatrix(f.data).Ok? && !AllRowsEqualLength(ParsedMatrix(f.data).value)
    ensures ValidData(Series, f) == Invalid(RaggedSeries)
  {
  }

  /** Fields that pass have parsed data and weights, one weight per entry of the first row, and
      the shape the input type needs: equal rows for a series, an N x N matrix otherwise, and for
      a correlation matrix N non-negative volatilities. */
  lemma ValidatedShape(dt: DataType, f: Form, p: Fields)
    requires WellParsed(p) && Validate(dt, f, p) == Valid
    ensures p.data.Ok? && p.weights.Ok?
    ensures var d, w := p.data.value, p.weights.value;
      |w| == |d[0]| && ValsBoundedBy(w, 0.0, AtMost(1.0)) && WeightsSumToOne(w) &&
      (dt == Series ==> AllRowsEqualLength(d)) &&
      (dt != Series ==> MatrixSquareAndComplete(d))
    ensures dt == Correlation ==>
      p.vols.Ok? && |p.vols.value| == |p.data.value| && ValsBoundedBy(p.vols.value, 0.0, Unbounded)
  {
  }

  /** A weight written as a literal too large for a double is a format error of the weights. */
  lemma OverflowWeightsRejected(f: Form)
    requires f.data != "" && f.weights == "1e400"
    requires ParsedMatrix(f.data).Ok? && MatrixSquareAndComplete(ParsedMatrix(f.data).value)
    ensures ValidData(Covariance, f) == Invalid(FormatError(Weights))
  {
    ListOverflowFails();
  }

  /** The quirk of the correlation bound check: a square correlation matrix whose first line ends
      in a space passes the square check, but reading the whole text as one list fails, and the
      check throws instead of reporting anything. */
  lemma CorrelationSpaceBeforeNewlineThrows(x: char, y: char, z: char, w: char, f: Form)
    requires IsDigit(x) && IsDigit(y) && IsDigit(z) && IsDigit(w)
    requires f.data == [x, ',', y, ' ', '\n', z, ',', w] && f.weights != "" && f.vols != ""
    ensures ParsedMatrix(f.data).Ok? && MatrixSquareAndComplete(ParsedMatrix(f.data).value)
    ensures ValidData(Correlation, f) == Invalid(CorrListThrows)
  {
    SpaceBeforeNewline(x, y, z, w);
    var m := [[DigitValue(x), DigitValue(y)], [DigitValue(z), DigitValue(w)]];
    assert MatrixSquareAndComplete(m);
    assert |f.data| == 8;
    SquareButNoListThrows(f, m);
  }

  /** A square matrix whose text does not read as one list makes the correlation check throw. */
  lemma SquareButNoListThrows(f: Form, m: seq<seq<real>>)
    requires f.data != "" && f.weights != "" && f.vols != ""
    requires |m| > 0 && ParsedMatrix(f.data) == Ok(m) && MatrixSquareAndComplete(m)
    requires ParsedList(f.data) == Fail
    ensures ValidData(Correlation, f) == Invalid(CorrListThrows)
  {
    var p := ParseForm(f);
    EntriesFailThrow(f, p);
  }

  lemma EntriesFailThrow(f: Form, p: Fields)
    requires WellParsed(p) && CheckBlanks(Correlation, f) == Valid
    requires p.data.Ok? && MatrixSquareAndComplete(p.data.value) && !p.entries.Ok?
    ensures Validate(Correlation, f, p) == Invalid(CorrListThrows)
  {
  }
}
