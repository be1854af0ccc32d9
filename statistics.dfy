/** `calcMean`, `calcCovar` and `calcCovarMatrix` of varcalc.js (javascript/varcalc.js:330-376).
    A data series is a matrix with one row per observation and one column per variable; the
    functions give the column means and the sample covariances, the loops compute them. */
module Statistics {

  /** Every row has at least `n` entries, so column `i < n` can be read in every row. */
  predicate HasColumns(data: seq<seq<real>>, n: nat) {
    forall k :: 0 <= k < |data| ==> n <= |data[k]|
  }

  /** The sum of column `i` over the first `t` rows. */
  function ColumnSum(data: seq<seq<real>>, i: nat, t: nat): real
    requires t <= |data| && HasColumns(data, i + 1)
  {
    if t == 0 then 0.0 else ColumnSum(data, i, t - 1) + data[t - 1][i]
  }

  /** The mean of column `i`. */
  function Mean(data: seq<seq<real>>, i: nat): real
    requires |data| > 0 && HasColumns(data, i + 1)
  {
    ColumnSum(data, i, |data|) / (|data| as real)
  }

  /** The sum over the first `t` rows of the products of the deviations of columns `i` and `j`
      from `mi` and `mj`. */
  function DeviationProducts(data: seq<seq<real>>, i: nat, j: nat, mi: real, mj: real, t: nat): real
    requires t <= |data| && HasColumns(data, i + 1) && HasColumns(data, j + 1)
  {
    if t == 0 then 0.0
    else DeviationProducts(data, i, j, mi, mj, t - 1) + (data[t - 1][i] - mi) * (data[t - 1][j] - mj)
  }

  /** The sample covariance of columns `i` and `j`: for T rows, the deviation products scaled by
      1 / (T - 1). */
  function SampleCovariance(data: seq<seq<real>>, i: nat, j: nat): real
    requires |data| >= 2 && HasColumns(data, i + 1) && HasColumns(data, j + 1)
  {
    DeviationProducts(data, i, j, Mean(data, i), Mean(data, j), |data|) * (1.0 / ((|data| - 1) as real))
  }

  /** The N x N matrix of the sample covariances, N being the length of the first row. */
  function CovarianceMatrix(data: seq<seq<real>>): (c: seq<seq<real>>)
    requires |data| >= 2 && HasColumns(data, |data[0]|)
    ensures |c| == |data[0]| && forall i :: 0 <= i < |c| ==> |c[i]| == |data[0]|
  {
    var n := |data[0]|;
    seq(n, i requires 0 <= i < n => seq(n, j requires 0 <= j < n => SampleCovariance(data, i, j)))
  }

  // ---------------------------------------------------------------------------------------------
  // The loops of varcalc.js

  /** javascript/varcalc.js:330-340. */
  method CalcMean(data: seq<seq<real>>, i: nat) returns (mean: real)
    requires |data| > 0 && HasColumns(data, i + 1)
    ensures mean == Mean(data, i)
  {
    var n := |data|;
    var sum := 0.0;
    for k := 0 to n
      invariant sum == ColumnSum(data, i, k)
    {
      sum := sum + data[k][i];
    }
    mean := sum / (n as real);
  }

  /** javascript/varcalc.js:342-356: the deviation products accumulated, then scaled by
      `1 / (n - 1)`. */
  method CalcCovar(data: seq<seq<real>>, i: nat, j: nat) returns (covar: real)
    requires |data| >= 2 && HasColumns(data, i + 1) && HasColumns(data, j + 1)
    ensures covar == SampleCovariance(data, i, j)
  {
    var n := |data|;
    var meanI := CalcMean(data, i);
    var meanJ := CalcMean(data, j);
    var sum := SumDeviationProducts(data, i, j, meanI, meanJ);
    covar := sum * (1.0 / ((n - 1) as real));
    ScaledProducts(data, i, j, sum);
  }

  lemma ScaledProducts(data: seq<seq<real>>, i: nat, j: nat, sum: real)
    requires |data| >= 2 && HasColumns(data, i + 1) && HasColumns(data, j + 1)
    requires sum == DeviationProducts(data, i, j, Mean(data, i), Mean(data, j), |data|)
    ensures SampleCovariance(data, i, j) == sum * (1.0 / ((|data| - 1) as real))
  {
  }

  /** The accumulation loop of `calcCovar`. */
  method SumDeviationProducts(data: seq<seq<real>>, i: nat, j: nat, mi: real, mj: real)
    returns (sum: real)
    requires HasColumns(data, i + 1) && HasColumns(data, j + 1)
    ensures sum == DeviationProducts(data, i, j, mi, mj, |data|)
  {
    sum := 0.0;
    for k := 0 to |data|
      invariant sum == DeviationProducts(data, i, j, mi, mj, k)
    {
      sum := sum + (data[k][i] - mi) * (data[k][j] - mj);
    }
  }

  /** javascript/varcalc.js:358-376: row by row, entry by entry, each a fresh `calcCovar`. */
  method CalcCovarMatrix(data: seq<seq<real>>) returns (matrix: seq<seq<real>>)
    requires |data| >= 2 && HasColumns(data, |data[0]|)
    ensures matrix == CovarianceMatrix(data)
  {
    ghost var c := CovarianceMatrix(data);
    var variableCount := |data[0]|;
    matrix := [];
    for i := 0 to variableCount
      invariant matrix == c[..i]
    {
      var row := CovarianceRow(data, i);
      assert row == c[i];
      assert c[..i + 1] == c[..i] + [c[i]];
      matrix := matrix + [row];
    }
    assert c[..variableCount] == c;
  }

  /** The inner loop of `calcCovarMatrix`: row `i` of the covariance matrix. */
  method CovarianceRow(data: seq<seq<real>>, i: nat) returns (row: seq<real>)
    requires |data| >= 2 && HasColumns(data, |data[0]|) && i < |data[0]|
    ensures row == CovarianceMatrix(data)[i]
  {
    ghost var r := CovarianceMatrix(data)[i];
    var variableCount := |data[0]|;
    row := [];
    for j := 0 to variableCount
      invariant row == r[..j]
    {
      var x := CalcCovar(data, i, j);
      assert r[..j + 1] == r[..j] + [x];
      row := row + [x];
    }
    assert r[..variableCount] == r;
  }

  // ---------------------------------------------------------------------------------------------
  // Properties

  /** A column whose values lie between `lo` and `hi` has its mean between them. */
  lemma MeanBetween(data: seq<seq<real>>, i: nat, lo: real, hi: real)
    requires |data| > 0 && HasColumns(data, i + 1)
    requires forall k :: 0 <= k < |data| ==> lo <= data[k][i] <= hi
    ensures lo <= Mean(data, i) <= hi
  {
    ColumnSumBetween(data, i, lo, hi, |data|);
  }

  lemma {:induction false} ColumnSumBetween(data: seq<seq<real>>, i: nat, lo: real, hi: real, t: nat)
    requires t <= |data| && HasColumns(data, i + 1)
    requires forall k :: 0 <= k < |data| ==> lo <= data[k][i] <= hi
    ensures (t as real) * lo <= ColumnSum(data, i, t) <= (t as real) * hi
  {
    if t > 0 {
      ColumnSumBetween(data, i, lo, hi, t - 1);
    }
  }

  /** The deviations of a column from its mean sum to zero. */
  lemma DeviationsSumToZero(data: seq<seq<real>>, i: nat)
    requires |data| > 0 && HasColumns(data, i + 1)
    ensures Deviations(data, i, Mean(data, i), |data|) == 0.0
  {
    DeviationsOfSum(data, i, Mean(data, i), |data|);
  }

  /** The sum over the first `t` rows of the deviations of column `i` from `m`. */
  function Deviations(data: seq<seq<real>>, i: nat, m: real, t: nat): real
    requires t <= |data| && HasColumns(data, i + 1)
  {
    if t == 0 then 0.0 else Deviations(data, i, m, t - 1) + (data[t - 1][i] - m)
  }

  lemma {:induction false} DeviationsOfSum(data: seq<seq<real>>, i: nat, m: real, t: nat)
    requires t <= |data| && HasColumns(data, i + 1)
    ensures Deviations(data, i, m, t) == ColumnSum(data, i, t) - (t as real) * m
  {
    if t > 0 {
      DeviationsOfSum(data, i, m, t - 1);
    }
  }

  /** The deviation products do not depend on the order of the two columns. */
  lemma {:induction false} DeviationProductsSymmetric(data: seq<seq<real>>, i: nat, j: nat, mi: real, mj: real, t: nat)
    requires t <= |data| && HasColumns(data, i + 1) && HasColumns(data, j + 1)
    ensures DeviationProducts(data, i, j, mi, mj, t) == DeviationProducts(data, j, i, mj, mi, t)
  {
    if t > 0 {
      DeviationProductsSymmetric(data, i, j, mi, mj, t - 1);
    }
  }

  /** A sum of squared deviations is never negative. */
  lemma {:induction false} SquaredDeviationsNonNegative(data: seq<seq<real>>, i: nat, m: real, t: nat)
    requires t <= |data| && HasColumns(data, i + 1)
    ensures DeviationProducts(data, i, i, m, m, t) >= 0.0
  {
    if t > 0 {
      SquaredDeviationsNonNegative(data, i, m, t - 1);
      var d := data[t - 1][i] - m;
      assert d * d >= 0.0;
    }
  }

  /** The covariance matrix is symmetric and its diagonal, the sample variances, is never
      negative. */
  lemma CovarianceMatrixSymmetric(data: seq<seq<real>>)
    requires |data| >= 2 && HasColumns(data, |data[0]|)
    ensures var c := CovarianceMatrix(data);
      (forall i, j :: 0 <= i < |c| && 0 <= j < |c| ==> c[i][j] == c[j][i]) &&
      (forall i :: 0 <= i < |c| ==> c[i][i] >= 0.0)
  {
    var c := CovarianceMatrix(data);
    forall i, j | 0 <= i < |c| && 0 <= j < |c|
      ensures c[i][j] == c[j][i]
    {
      DeviationProductsSymmetric(data, i, j, Mean(data, i), Mean(data, j), |data|);
    }
    forall i | 0 <= i < |c|
      ensures c[i][i] >= 0.0
    {
      SquaredDeviationsNonNegative(data, i, Mean(data, i), |data|);
    }
  }

  /** The series [1, 2], [3, 4], [5, 6] (three observations of two variables) has every
      covariance equal to 4. */
  lemma CovarianceExample()
    ensures CovarianceMatrix([[1.0, 2.0], [3.0, 4.0], [5.0, 6.0]]) == [[4.0, 4.0], [4.0, 4.0]]
  {
    var data := [[1.0, 2.0], [3.0, 4.0], [5.0, 6.0]];
    ExampleMean(data, 0);
    ExampleMean(data, 1);
    ExampleProducts(data, 0, 0);
    ExampleProducts(data, 0, 1);
    ExampleProducts(data, 1, 0);
    ExampleProducts(data, 1, 1);
    var c := CovarianceMatrix(data);
    assert c[0] == [4.0, 4.0] && c[1] == [4.0, 4.0];
  }

  lemma ExampleMean(data: seq<seq<real>>, i: nat)
    requires data == [[1.0, 2.0], [3.0, 4.0], [5.0, 6.0]] && i < 2
    ensures Mean(data, i) == 3.0 + i as real
  {
    assert ColumnSum(data, i, 1) == 1.0 + i as real;
    assert ColumnSum(data, i, 2) == 4.0 + 2.0 * i as real;
    assert ColumnSum(data, i, 3) == 9.0 + 3.0 * i as real;
  }

  lemma ExampleProducts(data: seq<seq<real>>, i: nat, j: nat)
    requires data == [[1.0, 2.0], [3.0, 4.0], [5.0, 6.0]] && i < 2 && j < 2
    ensures DeviationProducts(data, i, j, 3.0 + i as real, 3.0 + j as real, 3) == 8.0
  {
    var mi, mj := 3.0 + i as real, 3.0 + j as real;
    assert data[0][i] - mi == -2.0 && data[1][i] - mi == 0.0 && data[2][i] - mi == 2.0;
    assert data[0][j] - mj == -2.0 && data[1][j] - mj == 0.0 && data[2][j] - mj == 2.0;
    assert DeviationProducts(data, i, j, mi, mj, 1) == 4.0;
    assert DeviationProducts(data, i, j, mi, mj, 2) == 4.0;
  }
}
