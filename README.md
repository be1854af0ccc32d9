# mixed-variance: the portfolio variance calculator, modelled in Dafny

`javascript/varcalc.js` is a form-driven calculator. It measures the variance of one portfolio from a weight vector plus one of three risk inputs:

- a matrix of historical return series (one row per observation, one column per asset);
- a covariance matrix;
- a correlation matrix together with a list of volatilities.

This project models the non-UI part of that script:

- **Parsers.** `parseList` trims the text, removes the one white-space character after each comma (the pattern `,\s`: a comma followed by a space, tab, newline or other white-space character) and splits on every white-space character or comma. It fails when any token is not numeric. `parseMatrix` splits on newlines and parses each line as a list.
- **Validation chain.** `checkBlanks` runs first, then `validSeries`, `validCovar` or `validCorr`; each calls `validWeights` after its own data checks, and `validCorr` checks the volatilities after the weights. The first failed check is the message shown.
- **Statistics.** `calcMean` and `calcCovar`, which is the sample covariance with the 1 / (T - 1) factor. `calcCovarMatrix` builds the N x N matrix, where N is the length of the first row.
- **Double sums.** The three double sums of `calcVol` equal the quadratic form of the weights with a kernel matrix. For the correlation input, the kernel is `corr[i][j] * vol[i] * vol[j]`.
- **Annualisation.** `annualizeVariance` multiplies the variance by the `period_map` factor: 1, 2, 4, 12 or 252.
- **Submit handler.** It validates, then computes.

Arithmetic is exact, over `real`.

The modules follow the program's layers:

| module | file | what it holds |
|---|---|---|
| `Lexing` | lexing.dfy | `trim`, the comma-then-white-space replacement, the separator split, newline split and join |
| `Numerals` | numerals.dfy | `$.isNumeric` and `Number` on decimal literals |
| `Parsing` | parsing.dfy | `parseList` and `parseMatrix`, each a function used as the specification plus the loop method that implements it |
| `Validation` | validation.dfy | the predicates, the validation chain, and a separate reference version of it: the ordered list of rules, of which the first one broken is reported |
| `Statistics` | statistics.dfy | means, sample covariance, the covariance matrix |
| `Variance` | variance.dfy | the quadratic form, the loops of `calcVol`, annualisation |
| `Calculator` | calculator.dfy | the submit handler and `calcVol` |

Four behaviours of the code are modelled as the code has them:

- **Single observation.** A return series of one observation makes `calcCovar` divide by zero, so the page shows `NaN`. This is the `NotANumber` outcome.
- **Correlation bound check.** It parses the *whole* data text with `parseList`. When that fails, the page does not show a message: the code calls `every` on `undefined` and throws. One example is a square matrix whose first line ends in a space before the newline. This is the `CorrListThrows` error.
- **Doubled separators.** Two separators in a row inside a list make an empty token, and the whole list fails. Examples are `",,"`, two spaces (also right after a comma, as in `"1,  2"`), a space before a comma (`"1 ,2"`), or a space before a newline. A comma followed by one white-space character is the only pair that is not doubled, because the replacement removes that character.
- **Trailing newline.** A trailing newline in matrix data makes an empty last line, and the whole matrix fails.

## Model

| member | source | states |
|---|---|---|
| Lexing.Trim | javascript/varcalc.js:54 | `trim` returns the infix of the text between its leading and trailing white space; everything cut off is white space and the result neither starts nor ends with white space |
| Lexing.DropSpaceAfterComma | javascript/varcalc.js:54 | the replacement `,\s` to `,` never lengthens the text; what it keeps and drops is stated by AfterComma, AfterOther and DropSpaceKeepsDoubleComma |
| Lexing.SplitWhere | javascript/varcalc.js:54 | splitting always gives at least one piece and no piece contains a separator |
| Lexing.Tokens | javascript/varcalc.js:54 | no contract of its own: the tokens are the trimmed text with the replacement applied, split at every separator; TokensOfInterleave, DoubledSeparatorEmptyToken and BlankTokens state what they are |
| Lexing.Lines | javascript/varcalc.js:73 | no contract of its own: `split("\n")`; SplitJoin and TrailingNewlineLine state what it gives |
| Lexing.SplitJoin | javascript/varcalc.js:73 | splitting separator-free lines joined by newlines gives back the same lines in order |
| Lexing.TrailingNewlineLine | javascript/varcalc.js:73 | a text ending in a newline splits into its lines plus one empty last line |
| Lexing.TrimKeepsInfix | javascript/varcalc.js:54 | trimming text around a non-blank middle keeps the middle intact |
| Lexing.TrimStartOfInfix | javascript/varcalc.js:54 | trimming the start of a text stops at a middle that starts with a non-blank character, which stays intact with everything after it |
| Lexing.TrimEndOfInfix | javascript/varcalc.js:54 | trimming the end of a text stops at a middle that ends with a non-blank character, which stays intact with everything before it |
| Lexing.AfterComma | javascript/varcalc.js:54 | the replacement drops exactly one white-space character after a comma |
| Lexing.DropSpaceKeepsDoubleComma | javascript/varcalc.js:54 | the replacement never removes a doubled comma |
| Lexing.TokensOfInterleave | javascript/varcalc.js:54 | non-empty separator-free entries joined by delimiters (one separator, or a comma and one space) tokenise back to exactly those entries |
| Lexing.DoubleCommaEmptyToken | javascript/varcalc.js:54 | a doubled comma anywhere produces an empty token |
| Lexing.AdjacentSpacesEmptyToken | javascript/varcalc.js:54 | in a text that is non-blank at both ends, two white-space characters in a row not preceded by a comma enclose an empty token between the tokens before and after them (the general case is DoubledSeparatorEmptyToken) |
| Lexing.DoubledSeparatorEmptyToken | javascript/varcalc.js:54 | any two separators in a row, other than a comma followed by white space, give an empty token, whatever text (non-blank at both ends) surrounds them; this includes two spaces after a comma and a space before a comma |
| Lexing.TrailingSpaceIgnored | javascript/varcalc.js:54 | any amount of white space after the last entry gives the same tokens |
| Lexing.BlankTokens | javascript/varcalc.js:54 | text of white space only gives the one empty token |
| Numerals.NumericTokenShape | javascript/varcalc.js:57 | a numeric token is non-empty and contains no separator |
| Numerals.IsNumericToken | javascript/varcalc.js:57 | no contract of its own: a token is numeric when it is a decimal literal whose value is finite as a double; the literal rows below and OverflowLiteral state which tokens pass |
| Numerals.ToNumber | javascript/varcalc.js:63 | no contract of its own: the exact value of a numeric token; the literal rows below state the values |
| Numerals.NumericOfScan | javascript/varcalc.js:57-63 | a token read as a decimal literal of finite value is numeric and denotes that value |
| Numerals.EmptyTokenNotNumeric | javascript/varcalc.js:57 | the empty token is not numeric |
| Numerals.DigitLiterals | javascript/varcalc.js:57-63 | "1", "2", "3" are numeric and denote 1, 2, 3; "a" is not numeric |
| Numerals.SingleDigit | javascript/varcalc.js:57-63 | every one-digit token is numeric and denotes its digit |
| Numerals.FractionLiteral | javascript/varcalc.js:57-63 | "0.25" is numeric and denotes 0.25 |
| Numerals.ExponentLiteral | javascript/varcalc.js:57-63 | "-1.5e2" is numeric and denotes -150 |
| Numerals.HalfLiteral | javascript/varcalc.js:57-63 | "0.5" is numeric and denotes 0.5 |
| Numerals.LonePointLiteral | javascript/varcalc.js:57 | "." is not numeric |
| Numerals.BareExponentLiteral | javascript/varcalc.js:57 | "1e" is not numeric |
| Numerals.TwoPointsLiteral | javascript/varcalc.js:57 | "1.2.3" is not numeric |
| Numerals.OverflowLiteral | javascript/varcalc.js:57 | "1e400" reads as a decimal literal but is not numeric, because its value overflows a double |
| Numerals.Pow10Exceeds | javascript/varcalc.js:57 | 10^400 is at least the overflow threshold of a double, 2^1024 - 2^970 |
| Parsing.Numbers | javascript/varcalc.js:62-64 | one number per token |
| Parsing.ParsedList | javascript/varcalc.js:50-67 | a successful parse is a non-empty list |
| Parsing.ParsedMatrix | javascript/varcalc.js:69-87 | a successful parse has at least one row and no empty row |
| Parsing.ParseList | javascript/varcalc.js:50-67 | the method returns the list the specification function gives: absent, failed, or the numbers |
| Parsing.ConvertTokens | javascript/varcalc.js:62-64 | the conversion loop yields exactly each token's number, in order |
| Parsing.ParseMatrix | javascript/varcalc.js:69-87 | the method returns the matrix the specification function gives |
| Parsing.ParseLines | javascript/varcalc.js:77-84 | the row loop gives one row per line when every line parses, and fails otherwise |
| Parsing.ListAbsentIffEmpty | javascript/varcalc.js:52 | a list is absent exactly when the text is the empty string (white space alone is not absent) |
| Parsing.ListOkIffAllTokensNumeric | javascript/varcalc.js:54-66 | non-empty text parses exactly when every token is numeric, and then gives one number per token, each the value of its token |
| Parsing.ListOfDelimitedEntries | javascript/varcalc.js:50-67 | numeric entries separated by delimiters parse to their numbers in order |
| Parsing.ListDoubleCommaFails | javascript/varcalc.js:54-60 | a doubled comma anywhere fails the list |
| Parsing.ListBlankFails | javascript/varcalc.js:54-60 | non-empty text of white space only fails |
| Parsing.ListExamples | javascript/varcalc.js:50-67 | "1, 2,3" and "1 2 3" both give [1, 2, 3] |
| Parsing.ThreeDigits | javascript/varcalc.js:50-67 | any three one-digit entries with two delimiters give their three digits |
| Parsing.NumbersOfDigits | javascript/varcalc.js:62-64 | one-digit tokens are numeric and convert to their digits |
| Parsing.ListExampleLetter | javascript/varcalc.js:57-60 | "1,a,3" fails |
| Parsing.ListAdjacentSpacesFail | javascript/varcalc.js:54-60 | in a text that is non-blank at both ends, two white-space characters in a row not preceded by a comma fail the list (the general case is ListDoubledSeparatorFails) |
| Parsing.ListDoubledSeparatorFails | javascript/varcalc.js:54-60 | any two separators in a row, other than a comma followed by white space, inside text non-blank at both ends fail the list |
| Parsing.DoubledSeparatorExamples | javascript/varcalc.js:54-60 | "1,  2" and "1 ,2" fail |
| Parsing.ListOverflowFails | javascript/varcalc.js:57-60 | "1e400" fails as a list |
| Parsing.TwoEntries | javascript/varcalc.js:50-67 | two numeric tokens joined by a comma give the list of their two values |
| Parsing.HalvesList | javascript/varcalc.js:50-67 | "0.5,0.5" gives [0.5, 0.5] |
| Parsing.ListTrailingSpace | javascript/varcalc.js:54 | any amount of white space after the last entry does not change the list |
| Parsing.MatrixAbsentIffEmpty | javascript/varcalc.js:71 | a matrix is absent exactly when the text is the empty string |
| Parsing.MatrixTrailingNewlineFails | javascript/varcalc.js:73-81 | a text ending in a newline fails as a matrix |
| Parsing.MatrixOfLines | javascript/varcalc.js:69-87 | lines that each parse, joined by newlines, give one row per line in order, whatever their lengths |
| Parsing.MatrixExample | javascript/varcalc.js:69-87 | "x,y\nz,w" of digits gives the 2 x 2 matrix of those digits |
| Parsing.ThreeLines | javascript/varcalc.js:69-87 | three newline-free lines that each parse, joined by newlines, give the three rows in order |
| Parsing.ThreeDigitPairs | javascript/varcalc.js:69-87 | three lines "x,y" of digits joined by newlines give the 3 x 2 matrix of those digits |
| Parsing.ThreeRowsExample | javascript/varcalc.js:69-87 | "1,2\n3,4\n5,6" gives [[1, 2], [3, 4], [5, 6]] |
| Parsing.SpaceBeforeNewline | javascript/varcalc.js:50-87 | "x,y \nz,w" parses as a 2 x 2 matrix but fails as one list |
| Validation.ParseForm | javascript/varcalc.js:216-285 | the parsed fields have the shape the checks rely on: non-empty lists, matrices with at least one row and no empty row |
| Validation.SquareIsNByN | javascript/varcalc.js:121-135 | a matrix passes `matrixSquareAndComplete` exactly when it is N x N, and then its rows are of equal length |
| Validation.ValsBoundedBy | javascript/varcalc.js:89-96 | no contract of its own: every value lies between the bounds; BoundedIffMembersBounded and UnboundedIsLowerBound state it |
| Validation.BoundedIffMembersBounded | javascript/varcalc.js:89-96 | the index form of the bound check holds exactly when every member of the list lies between the bounds, as `every` checks it |
| Validation.Sum | javascript/varcalc.js:100 | no contract of its own: the left-to-right sum of `reduce`; SumSnoc states it |
| Validation.WeightsSumToOne | javascript/varcalc.js:98-105 | the check holds exactly when the sum differs from 1 by at most 1e-8, in both directions |
| Validation.AllRowsEqualLength | javascript/varcalc.js:107-119 | the check holds exactly when every two rows have the same length |
| Validation.MatrixSquareAndComplete | javascript/varcalc.js:121-135 | the check holds exactly when every row is as long as the matrix is high |
| Validation.SameCount | javascript/varcalc.js:137-139 | no contract of its own: as many values as the first row has entries; WeightRulesAreValidWeights and VolRulesAreValidVols place it in the chain |
| Validation.CheckBlanks | javascript/varcalc.js:145-186 | passes exactly when data and weights are non-empty and, for a correlation matrix, the volatilities too; every error it gives is a blank field, and a blank volatility field is reported only for a correlation matrix |
| Validation.ValidWeights | javascript/varcalc.js:214-234 | passes exactly when the weights parse, lie in [0, 1], sum to one and are one per entry of the first data row; every error it gives is one of the four weight messages |
| Validation.ValidSeries | javascript/varcalc.js:236-249 | passes exactly when the data parse, the rows are of equal length and the weights pass; an error is a data format error, a ragged series or a weight error |
| Validation.ValidCovar | javascript/varcalc.js:251-264 | passes exactly when the data parse, the matrix is N x N and the weights pass; an error is a data format error, a non-square matrix or a weight error |
| Validation.ValidCorr | javascript/varcalc.js:266-296 | passes exactly when the data parse as an N x N matrix, the whole text parses as one list with every entry in [-1, 1], and the weights and the volatilities pass; it never reports a blank field or a ragged series |
| Validation.ValidVols | javascript/varcalc.js:285-293 | passes exactly when the volatilities parse, are non-negative and are one per entry of the first row; an error is one of the three volatility messages |
| Validation.Validate | javascript/varcalc.js:298-313 | a blank field is reported before anything else, a blank error comes only from `checkBlanks`, and a passing form has no blank field and parsed data and weights |
| Validation.ValidData | javascript/varcalc.js:298-313 | a form that passes has non-empty data and weights that parse as a matrix and a list |
| Validation.OverflowWeightsRejected | javascript/varcalc.js:214-218 | with well-formed square data, weights "1e400" are reported as a weight format error |
| Validation.UnboundedIsLowerBound | javascript/varcalc.js:89-96 | with the `Infinity` upper bound the check asks only for the lower bound |
| Validation.SumSnoc | javascript/varcalc.js:100 | the `reduce` sum over one more weight adds that weight |
| Validation.SumToleranceExamples | javascript/varcalc.js:98-105 | weights summing to 1 are accepted, weights summing to 0.5 or 1.5 are rejected |
| Validation.FirstViolationValid | javascript/varcalc.js:298-313 | checking a rule list passes exactly when every rule holds |
| Validation.FirstViolationReports | javascript/varcalc.js:298-313 | the first rule that fails is the one reported |
| Validation.FirstViolationAppend | javascript/varcalc.js:298-313 | checking two rule lists in order reports the first list's failure, else the second's |
| Validation.FirstViolationCons | javascript/varcalc.js:298-313 | checking a list that starts with a failing rule reports that rule |
| Validation.FirstViolationFour | javascript/varcalc.js:214-234 | checking four rules reports the first of them that fails |
| Validation.WeightRulesAreValidWeights | javascript/varcalc.js:214-234 | `validWeights` checks format, bounds [0, 1], sum to one, then count, in this order |
| Validation.VolRulesAreValidVols | javascript/varcalc.js:285-293 | the volatility checks are format, non-negativity, then one per row, in this order |
| Validation.ChainMatchesOrder | javascript/varcalc.js:145-313 | the validation chain reports exactly the first rule broken in the source's order for the input type, and passes only when every rule holds |
| Validation.CorrelationHead | javascript/varcalc.js:266-281 | the checks of `validCorr` before the weights: blanks, data format, square, the whole-text list, its bounds [-1, 1] |
| Validation.ValidDataMatchesOrder | javascript/varcalc.js:298-313 | `validData` reports the first rule of the source's order that the form breaks |
| Validation.BlankDataReportedFirst | javascript/varcalc.js:162-166 | a blank data field is reported whatever the other fields hold |
| Validation.RaggedReportedBeforeWeights | javascript/varcalc.js:236-249 | a ragged series is reported before any weight error |
| Validation.ValidatedShape | javascript/varcalc.js:298-313 | a form that passes has parsed data and weights: one weight per entry of the first row, each in [0, 1], summing to one within 1e-8; equal rows for a series, N x N otherwise; N non-negative volatilities for a correlation matrix |
| Validation.CorrelationSpaceBeforeNewlineThrows | javascript/varcalc.js:278-281 | a square correlation matrix with a space before the newline passes the square check, but the bound check throws |
| Validation.SquareButNoListThrows | javascript/varcalc.js:278-281 | a square matrix whose text does not parse as one list makes the correlation check throw |
| Validation.EntriesFailThrow | javascript/varcalc.js:273-281 | once blanks, format and squareness pass, a failing whole-text list throws |
| Statistics.CovarianceMatrix | javascript/varcalc.js:358-376 | the covariance matrix is N x N, N the length of the first row |
| Statistics.Mean | javascript/varcalc.js:330-340 | no contract of its own: the column sum over the row count; CalcMean, MeanBetween and DeviationsSumToZero state it |
| Statistics.SampleCovariance | javascript/varcalc.js:342-356 | no contract of its own: the deviation products over T - 1; CalcCovar, DeviationProductsSymmetric and CovarianceExample state it |
| Statistics.CalcMean | javascript/varcalc.js:330-340 | the loop computes the mean of column i |
| Statistics.CalcCovar | javascript/varcalc.js:342-356 | the loop computes the sample covariance: the deviation products scaled by 1 / (T - 1) |
| Statistics.SumDeviationProducts | javascript/varcalc.js:349-351 | the accumulation loop sums the products of the two columns' deviations over all rows |
| Statistics.CalcCovarMatrix | javascript/varcalc.js:358-376 | the nested loops build exactly the matrix of sample covariances |
| Statistics.CovarianceRow | javascript/varcalc.js:366-372 | the inner loop builds row i of that matrix |
| Statistics.MeanBetween | javascript/varcalc.js:330-340 | the mean of values between two bounds lies between them |
| Statistics.DeviationsSumToZero | javascript/varcalc.js:330-351 | the deviations of a column from its mean sum to zero |
| Statistics.DeviationProductsSymmetric | javascript/varcalc.js:349-351 | the deviation products do not depend on the order of the two columns |
| Statistics.SquaredDeviationsNonNegative | javascript/varcalc.js:349-351 | a sum of squared deviations is never negative |
| Statistics.CovarianceMatrixSymmetric | javascript/varcalc.js:358-376 | the covariance matrix is symmetric with a non-negative diagonal |
| Statistics.CovarianceExample | javascript/varcalc.js:330-376 | the series [1, 2], [3, 4], [5, 6] has every covariance equal to 4 |
| Variance.CorrToCovar | javascript/varcalc.js:414 | the correlation branch's kernel is N x N with entry `c[i][j] * v[i] * v[j]` |
| Variance.QuadForm | javascript/varcalc.js:391-416 | no contract of its own: the sum of `w[i] * w[j] * k[i][j]` over all i and j; WeightedSum, WeightedCorrelationSum, QuadFormScales and DiagonalKernel state it |
| Variance.WeightedSum | javascript/varcalc.js:391-405 | the double loop of the series and covariance branches computes the quadratic form of the weights with the matrix |
| Variance.WeightedCorrelationSum | javascript/varcalc.js:411-416 | the correlation loop computes the quadratic form with the converted kernel, the same value the covariance branch gives on that kernel |
| Variance.AddCorrelationRow | javascript/varcalc.js:413-415 | the inner correlation loop adds the terms of row i |
| Variance.PeriodFactor | javascript/varcalc.js:3-9 | every period count lies between 1 (annual) and 252 (daily) |
| Variance.QuadFormScales | javascript/varcalc.js:315-328 | scaling the kernel scales the variance by the same factor |
| Variance.AnnualizeScalesKernel | javascript/varcalc.js:315-328 | annualising the double sum once equals the double sum of the kernel scaled by the period factor |
| Variance.Annualize | javascript/varcalc.js:315-328 | no contract of its own: the variance unchanged or times the period factor; AnnualizeMonotone, AnnualizeExamples and AnnualizeScalesKernel state it |
| Variance.AnnualizeMonotone | javascript/varcalc.js:315-328 | annualising never makes a non-negative variance smaller |
| Variance.AnnualizeExamples | javascript/varcalc.js:315-328 | 0.01 monthly is 0.12 a year, 0.0001 daily is 0.0252, an unannualised variance is unchanged |
| Variance.DiagonalKernel | javascript/varcalc.js:391-405 | with a diagonal kernel only the squared weights times the diagonal count |
| Variance.VarianceExample | javascript/varcalc.js:398-416 | covariances [[0.04, 0], [0, 0.09]] with weights [0.5, 0.5] give 0.0325; the identity correlation with volatilities [0.2, 0.3] converts to that covariance matrix |
| Calculator.Submit | javascript/varcalc.js:486-499 | the submit handler gives exactly the outcome of the form: the validation error, or the annualised variance |
| Calculator.Unannualized | javascript/varcalc.js:378-417 | no contract of its own: the validation error, or the double sum of the selected branch; SeriesSum, CovarianceSum and CorrelationSum state it |
| Calculator.AnnualizeOutcome | javascript/varcalc.js:315-328 | no contract of its own: `annualizeVariance` as `calcVol` calls it at its end (line 419), applied to a computed variance only; AnnualizeOutcomePlain, AnnualizeOutcomeScales and AnnualizedAfterSum state it |
| Calculator.PortfolioVariance | javascript/varcalc.js:486-499 | no contract of its own: the unannualised outcome, annualised; RejectedIffInvalid and AnnualizedAfterSum state it |
| Calculator.CalcVol | javascript/varcalc.js:378-423 | on a validated form `calcVol` computes the selected branch's double sum and annualises it |
| Calculator.SeriesSum | javascript/varcalc.js:387-397 | the series branch is the quadratic form of the sample covariance matrix, or `NaN` for one observation |
| Calculator.ValidSeriesOutcome | javascript/varcalc.js:387-397 | a series form that parses to at least two equal-length rows and valid weights gives the quadratic form of the weights with the sample covariance matrix |
| Calculator.SeriesExample | javascript/varcalc.js:378-423 | the series "1,2\n3,4\n5,6" with weights "0.5,0.5", not annualised, has variance 4 |
| Calculator.UniformKernelExample | javascript/varcalc.js:391-397 | weights [0.5, 0.5] with the matrix of fours give 4 |
| Calculator.CovarianceSum | javascript/varcalc.js:398-406 | the covariance branch is the quadratic form of the matrix given |
| Calculator.CorrelationSum | javascript/varcalc.js:407-417 | the correlation branch is the quadratic form of the covariance matrix the correlations and volatilities describe |
| Calculator.RejectedIffInvalid | javascript/varcalc.js:494-496 | submitting shows an error exactly when validation fails, and it is the first failure |
| Calculator.NotANumberIffOneObservation | javascript/varcalc.js:353 | `NaN` is shown exactly for a valid series of one observation |
| Calculator.AnnualizedAfterSum | javascript/varcalc.js:419 | annualisation acts only on the unannualised outcome |
| Calculator.AnnualizeOutcomePlain | javascript/varcalc.js:320-322 | "not annualised" leaves every outcome unchanged |
| Calculator.AnnualizeOutcomeScales | javascript/varcalc.js:324-325 | annualising multiplies a variance by the period factor and leaves an error or `NaN` unchanged |

## Left out

- Reading the page: the text areas, the input-type radio buttons, the annualisation radio buttons and the periodicity selector become the parameters `Form`, `DataType` and `Annualization` (javascript/varcalc.js:147-150, 317, 324, 490).
- Showing results: printing messages and results, showing and hiding elements, the modal, the reset button and the input-type toggles and the heading of the data field (javascript/varcalc.js:11-48, 141-143, 188-190, 425-484). `checkErrorShort` and `checkErrorLong` (javascript/varcalc.js:192-212) are modelled by their verdicts: each check that fails becomes an `Invalid` verdict naming its message, and an error becomes the `Rejected` outcome carrying it; the message text is not kept.
- Rounding for display to 8 decimals (javascript/varcalc.js:35, 39): this is presentation only.
- The standard deviation `Math.sqrt(variance)` (javascript/varcalc.js:420): there is no real square root here. A negative variance from a non-positive-semi-definite matrix, whose square root is `NaN`, is therefore not modelled either.
- Floating point: all arithmetic is exact over `real`. Rounding error, overflow to `Infinity` in the sums and products, and the rounding of the 1e-8 sum tolerance are not modelled. The overflow of a literal is modelled: a token whose value rounds to an infinity is not numeric.
- Numerals.IsNumericToken: covers only decimal literals (an optional sign, digits with an optional point, an optional exponent). A literal whose magnitude is at least 2^1024 - 2^970, which `Number` rounds to an infinity, is rejected, as `$.isNumeric` of jQuery 1.8 and later rejects it; `Infinity` is not numeric in the model either. Hexadecimal (`0x…`), binary (`0b…`) and octal (`0o…`) literals, which `$.isNumeric` and `Number` also accept (`Number("0b1")` is 1), are not modelled, because jQuery is not part of this model.
- Numerals.ToNumber: gives the exact decimal value, not the nearest double.
- Validation.DataType: an input type other than the three radio values makes `checkBlanks` and `validData` return false without a message (javascript/varcalc.js:158-159, 308-309). The model's input type is a closed set of three, so that case does not arise.
- Variance.Periodicity: a periodicity missing from `period_map` would multiply by `undefined`, and an unchecked annualisation radio would annualise. Both choices are closed sets of values here, so neither case arises.
- Parsing.ConvertTokens: the source overwrites the token array with its numbers (javascript/varcalc.js:62-64). The model fills a new array of reals instead, since a Dafny array has one element type.
- Validation.ParseForm: the source parses a field again at each use, and `validWeights` parses the data again. The parsers are pure, so the model parses each field once and passes the results along.
- Calculator.CalcVol: `calcVol` mutates its local variables only, and the model computes the same values. When a series has one observation, the source computes `0 * Infinity = NaN`. The model returns `NotANumber`, not a number.
