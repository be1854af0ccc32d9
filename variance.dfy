/** The portfolio variance of varcalc.js: the double sums of `calcVol`
    (javascript/varcalc.js:387-416), which all compute the quadratic form of the weights with a
    kernel matrix, and `annualizeVariance` with `period_map` (javascript/varcalc.js:3-9, 315-328). */
module Variance {

  /** `k` is an n x n matrix. */
  predicate SquareOf(k: seq<seq<real>>, n: nat) {
    |k| == n && forall i :: 0 <= i < n ==> |k[i]| == n
  }

  /** `w[i] * w[j] * k[i][j]` summed over `j < n`. */
  function RowTerms(w: seq<real>, k: seq<seq<real>>, i: nat, n: nat): real
    requires SquareOf(k, |w|) && i < |w| && n <= |w|
  {
    if n == 0 then 0.0 else RowTerms(w, k, i, n - 1) + w[i] * w[n - 1] * k[i][n - 1]
  }

  /** The complete rows `i < m` of the double sum. */
  function RowsUpTo(w: seq<real>, k: seq<seq<real>>, m: nat): real
    requires SquareOf(k, |w|) && m <= |w|
  {
    if m == 0 then 0.0 else RowsUpTo(w, k, m - 1) + RowTerms(w, k, m - 1, |w|)
  }

  /** The sum of `w[i] * w[j] * k[i][j]` over all `i` and `j`. */
  function QuadForm(w: seq<real>, k: seq<seq<real>>): real
    requires SquareOf(k, |w|)
  {
    RowsUpTo(w, k, |w|)
  }

  /** The kernel of the correlation branch: `c[i][j] * v[i] * v[j]`, the covariance matrix that
      the correlations `c` and the volatilities `v` describe. */
  function CorrToCovar(c: seq<seq<real>>, v: seq<real>): (k: seq<seq<real>>)
    requires SquareOf(c, |v|)
    ensures SquareOf(k, |v|)
    ensures forall i, j :: 0 <= i < |v| && 0 <= j < |v| ==> k[i][j] == c[i][j] * v[i] * v[j]
  {
    seq(|v|, i requires 0 <= i < |v| => seq(|v|, j requires 0 <= j < |v| => c[i][j] * v[i] * v[j]))
  }

  // ---------------------------------------------------------------------------------------------
  // The loops of `calcVol`

  /** The series and covariance branches of `calcVol`: `variance += weights[i] * weights[j] *
      k[i][j]` for `i < k.length` and `j < k[0].length`. */
  method WeightedSum(w: seq<real>, k: seq<seq<real>>) returns (variance: real)
    requires |w| > 0 && SquareOf(k, |w|)
    ensures variance == QuadForm(w, k)
  {
    variance := 0.0;
    for i := 0 to |k|
      invariant variance == RowsUpTo(w, k, i)
    {
      for j := 0 to |k[0]|
        invariant variance == RowsUpTo(w, k, i) + RowTerms(w, k, i, j)
      {
        variance := variance + w[i] * w[j] * k[i][j];
      }
    }
  }

  /** The correlation branch of `calcVol`: `variance += weights[i] * weights[j] * data[i][j] *
      vols[i] * vols[j]`, which is the quadratic form of the converted kernel. */
  method WeightedCorrelationSum(w: seq<real>, c: seq<seq<real>>, v: seq<real>) returns (variance: real)
    requires |w| > 0 && |v| == |w| && SquareOf(c, |w|)
    ensures variance == QuadForm(w, CorrToCovar(c, v))
  {
    ghost var k := CorrToCovar(c, v);
    variance := 0.0;
    for i := 0 to |c|
      invariant variance == RowsUpTo(w, k, i)
    {
      variance := AddCorrelationRow(variance, w, c, v, i);
    }
  }

  /** The inner loop of the correlation branch, which adds the terms of row `i` to `variance`. */
  method AddCorrelationRow(variance: real, w: seq<real>, c: seq<seq<real>>, v: seq<real>, i: nat)
    returns (sum: real)
    requires |w| > 0 && |v| == |w| && SquareOf(c, |w|) && i < |w|
    ensures sum == variance + RowTerms(w, CorrToCovar(c, v), i, |w|)
  {
    ghost var k := CorrToCovar(c, v);
    sum := variance;
    for j := 0 to |c[0]|
      invariant sum == variance + RowTerms(w, k, i, j)
    {
      var term := w[i] * w[j] * c[i][j] * v[i] * v[j];
      assert term == w[i] * w[j] * k[i][j] by {
        Regroup(w[i] * w[j], c[i][j], v[i], v[j], k[i][j]);
      }
      RowTermsStep(w, k, i, j);
      sum := sum + term;
    }
  }

  lemma RowTermsStep(w: seq<real>, k: seq<seq<real>>, i: nat, j: nat)
    requires SquareOf(k, |w|) && i < |w| && j < |w|
    ensures RowTerms(w, k, i, j + 1) == RowTerms(w, k, i, j) + w[i] * w[j] * k[i][j]
  {
  }

  lemma Regroup(ww: real, x: real, a: real, b: real, y: real)
    requires y == x * a * b
    ensures ww * x * a * b == ww * y
  {
  }

  // ---------------------------------------------------------------------------------------------
  // `annualizeVariance` and `period_map`

  /** The options of the periodicity selector. */
  datatype Periodicity = Annual | SemiAnnual | Quarterly | Monthly | Daily

  /** `period_map`: the number of periods in a year. */
  function PeriodFactor(p: Periodicity): (n: nat)
    ensures 1 <= n <= 252
  {
    match p
    case Annual => 1
    case SemiAnnual => 2
    case Quarterly => 4
    case Monthly => 12
    case Daily => 252
  }

  /** The annualisation radio buttons, with the periodicity selected when annualising. */
  datatype Annualization = NotAnnualized | Annualized(period: Periodicity)

  /** `annualizeVariance`: the variance unchanged, or multiplied once by the period factor. */
  function Annualize(variance: real, a: Annualization): real {
    match a
    case NotAnnualized => variance
    case Annualized(p) => variance * (PeriodFactor(p) as real)
  }

  // ---------------------------------------------------------------------------------------------
  // Properties

  /** Every entry of `k` multiplied by `s`. */
  function ScaleKernel(k: seq<seq<real>>, s: real, n: nat): (r: seq<seq<real>>)
    requires SquareOf(k, n)
    ensures SquareOf(r, n)
    ensures forall i, j :: 0 <= i < n && 0 <= j < n ==> r[i][j] == s * k[i][j]
  {
    seq(n, i requires 0 <= i < n => seq(n, j requires 0 <= j < n => s * k[i][j]))
  }

  /** Scaling the kernel scales the quadratic form. */
  lemma QuadFormScales(w: seq<real>, k: seq<seq<real>>, s: real)
    requires SquareOf(k, |w|)
    ensures QuadForm(w, ScaleKernel(k, s, |w|)) == s * QuadForm(w, k)
  {
    RowsScale(w, k, s, |w|);
  }

  lemma {:induction false} RowsScale(w: seq<real>, k: seq<seq<real>>, s: real, m: nat)
    requires SquareOf(k, |w|) && m <= |w|
    ensures RowsUpTo(w, ScaleKernel(k, s, |w|), m) == s * RowsUpTo(w, k, m)
  {
    if m > 0 {
      RowsScale(w, k, s, m - 1);
      RowTermsScale(w, k, s, m - 1, |w|);
    }
  }

  lemma {:induction false} RowTermsScale(w: seq<real>, k: seq<seq<real>>, s: real, i: nat, n: nat)
    requires SquareOf(k, |w|) && i < |w| && n <= |w|
    ensures RowTerms(w, ScaleKernel(k, s, |w|), i, n) == s * RowTerms(w, k, i, n)
  {
    if n > 0 {
      RowTermsScale(w, k, s, i, n - 1);
      var sk := ScaleKernel(k, s, |w|);
      assert w[i] * w[n - 1] * sk[i][n - 1] == s * (w[i] * w[n - 1] * k[i][n - 1]);
    }
  }

  /** Annualising multiplies once, after the double sum: the result is the quadratic form of the
      kernel scaled by the period factor. */
  lemma AnnualizeScalesKernel(w: seq<real>, k: seq<seq<real>>, p: Periodicity)
    requires SquareOf(k, |w|)
    ensures Annualize(QuadForm(w, k), Annualized(p)) ==
      QuadForm(w, ScaleKernel(k, PeriodFactor(p) as real, |w|))
  {
    QuadFormScales(w, k, PeriodFactor(p) as real);
  }

  /** Annualising never makes a non-negative variance smaller. */
  lemma AnnualizeMonotone(variance: real, a: Annualization)
    requires variance >= 0.0
    ensures Annualize(variance, a) >= variance
  {
  }

  /** 0.01 per month is 0.12 a year; 0.0001 per day is 0.0252 a year. */
  lemma AnnualizeExamples()
    ensures Annualize(0.01, Annualized(Monthly)) == 0.12
    ensures Annualize(0.0001, Annualized(Daily)) == 0.0252
    ensures Annualize(0.01, NotAnnualized) == 0.01
  {
  }

  /** With a diagonal kernel only the squared weights count: the quadratic form is the sum of
      `w[i] * w[i] * k[i][i]`. */
  lemma DiagonalKernel(w: seq<real>, k: seq<seq<real>>)
    requires SquareOf(k, |w|)
    requires forall i, j :: 0 <= i < |w| && 0 <= j < |w| && i != j ==> k[i][j] == 0.0
    ensures QuadForm(w, k) == DiagonalSum(w, k, |w|)
  {
    DiagonalRows(w, k, |w|);
  }

  /** `w[i] * w[i] * k[i][i]` summed over `i < m`. */
  function DiagonalSum(w: seq<real>, k: seq<seq<real>>, m: nat): real
    requires SquareOf(k, |w|) && m <= |w|
  {
    if m == 0 then 0.0 else DiagonalSum(w, k, m - 1) + w[m - 1] * w[m - 1] * k[m - 1][m - 1]
  }

  lemma {:induction false} DiagonalRows(w: seq<real>, k: seq<seq<real>>, m: nat)
    requires SquareOf(k, |w|) && m <= |w|
    requires forall i, j :: 0 <= i < |w| && 0 <= j < |w| && i != j ==> k[i][j] == 0.0
    ensures RowsUpTo(w, k, m) == DiagonalSum(w, k, m)
  {
    if m > 0 {
      DiagonalRows(w, k, m - 1);
      DiagonalRowTerms(w, k, m - 1, |w|);
    }
  }

  lemma {:induction false} DiagonalRowTerms(w: seq<real>, k: seq<seq<real>>, i: nat, n: nat)
    requires SquareOf(k, |w|) && i < |w| && n <= |w|
    requires forall a, b :: 0 <= a < |w| && 0 <= b < |w| && a != b ==> k[a][b] == 0.0
    ensures RowTerms(w, k, i, n) == if i < n then w[i] * w[i] * k[i][i] else 0.0
  {
    if n > 0 {
      DiagonalRowTerms(w, k, i, n - 1);
    }
  }

  /** The covariance matrix [[0.04, 0], [0, 0.09]] with the weights [0.5, 0.5] gives 0.0325; so
      do the identity correlation matrix with the volatilities [0.2, 0.3]. */
  lemma VarianceExample()
    ensures QuadForm([0.5, 0.5], [[0.04, 0.0], [0.0, 0.09]]) == 0.0325
    ensures CorrToCovar([[1.0, 0.0], [0.0, 1.0]], [0.2, 0.3]) == [[0.04, 0.0], [0.0, 0.09]]
  {
    var w, k := [0.5, 0.5], [[0.04, 0.0], [0.0, 0.09]];
    DiagonalKernel(w, k);
    assert DiagonalSum(w, k, 1) == 0.01;
    var c := CorrToCovar([[1.0, 0.0], [0.0, 1.0]], [0.2, 0.3]);
    assert c[0] == [0.04, 0.0] && c[1] == [0.0, 0.09];
  }
}
