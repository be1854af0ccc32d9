/** `parseList` and `parseMatrix` of varcalc.js (javascript/varcalc.js:50-87): raw field text to
    an absent marker, a failure, or numbers. */
module Parsing {
  import opened Lexing
  import opened Numerals

  /** What the two parsers return: `""` (the field was empty), `undefined` (a token was not
      numeric), or the parsed value. */
  datatype Parsed<T> = Absent | Fail | Ok(value: T)

  predicate AllNumeric(ts: seq<string>) {
    forall k :: 0 <= k < |ts| ==> IsNumericToken(ts[k])
  }

  /** The numbers the tokens denote, one per token, in order. */
  function Numbers(ts: seq<string>): (xs: seq<real>)
    requires AllNumeric(ts)
    ensures |xs| == |ts|
  {
    seq(|ts|, k requires 0 <= k < |ts| => ToNumber(ts[k]))
  }

  /** A parsed list is never empty. */
  predicate ListShape(r: Parsed<seq<real>>) {
    r.Ok? ==> |r.value| > 0
  }

  /** A parsed matrix has at least one row and no empty row. */
  predicate MatrixShape(r: Parsed<seq<seq<real>>>) {
    r.Ok? ==> |r.value| > 0 && forall k :: 0 <= k < |r.value| ==> |r.value[k]| > 0
  }

  /** The list `parseList(s)` returns. */
  function ParsedList(s: string): (r: Parsed<seq<real>>)
    ensures ListShape(r)
  {
    if s == "" then Absent
    else
      var ts := Tokens(s);
      if AllNumeric(ts) then Ok(Numbers(ts)) else Fail
  }

  predicate AllLinesParse(ls: seq<string>) {
    forall k :: 0 <= k < |ls| ==> ParsedList(ls[k]).Ok?
  }

  /** One row per line, each the list `parseList` gives for that line. */
  function Rows(ls: seq<string>): (rows: seq<seq<real>>)
    requires AllLinesParse(ls)
    ensures |rows| == |ls|
    ensures forall k :: 0 <= k < |rows| ==> |rows[k]| >= 1
  {
    seq(|ls|, k requires 0 <= k < |ls| => ParsedList(ls[k]).value)
  }

  /** The matrix `parseMatrix(s)` returns. */
  function ParsedMatrix(s: string): (r: Parsed<seq<seq<real>>>)
    ensures MatrixShape(r)
  {
    if s == "" then Absent
    else
      var ls := Lines(s);
      if AllLinesParse(ls) then Ok(Rows(ls)) else Fail
  }

  // ---------------------------------------------------------------------------------------------
  // The loops of varcalc.js

  /** javascript/varcalc.js:50-67: tokenise, test every token, then convert. */
  method ParseList(s: string) returns (r: Parsed<seq<real>>)
    ensures r == ParsedList(s)
  {
    if s == "" {
      return Absent;
    }
    var tokens := Tokens(s);
    var allNumeric := forall k :: 0 <= k < |tokens| ==> IsNumericToken(tokens[k]);
    if !allNumeric {
      return Fail;
    }
    var xs := ConvertTokens(tokens);
    r := Ok(xs);
  }

  /** javascript/varcalc.js:62-64: the tokens are converted in place, one after another; here
      into an array of their numbers. */
  method ConvertTokens(tokens: seq<string>) returns (xs: seq<real>)
    requires AllNumeric(tokens)
    ensures xs == Numbers(tokens)
  {
    var arr := new real[|tokens|];
    for i := 0 to arr.Length
      invariant arr[..i] == Numbers(tokens)[..i]
    {
      arr[i] := ToNumber(tokens[i]);
      assert arr[..i + 1] == arr[..i] + [arr[i]];
    }
    xs := arr[..];
    assert xs == arr[..arr.Length];
  }

  /** javascript/varcalc.js:69-87: split into lines, then parse them. */
  method ParseMatrix(s: string) returns (r: Parsed<seq<seq<real>>>)
    ensures r == ParsedMatrix(s)
  {
    if s == "" {
      return Absent;
    }
    var lines := Lines(s);
    r := ParseLines(lines);
  }

  /** javascript/varcalc.js:77-84: the lines are parsed one after another and pushed; the first
      line that is absent or fails makes the whole matrix fail. */
  method ParseLines(lines: seq<string>) returns (r: Parsed<seq<seq<real>>>)
    ensures r == if AllLinesParse(lines) then Ok(Rows(lines)) else Fail
  {
    var matrix: seq<seq<real>> := [];
    for i := 0 to |lines|
      invariant AllLinesParse(lines[..i])
      invariant matrix == Rows(lines[..i])
    {
      var row := ParseList(lines[i]);
      if !row.Ok? {
        return Fail;
      }
      assert lines[..i + 1] == lines[..i] + [lines[i]];
      matrix := matrix + [row.value];
    }
    assert lines[..|lines|] == lines;
    r := Ok(matrix);
  }

  // ---------------------------------------------------------------------------------------------
  // Properties of parseList

  /** Only the exact empty string is absent; white space alone is not. */
  lemma {:induction false} ListAbsentIffEmpty(s: string)
    ensures ParsedList(s).Absent? <==> s == ""
  {
  }

  /** A successful parse has one number per token of the trimmed, comma-normalised, split text,
      each the value of that token; it succeeds exactly when every token is numeric. */
  lemma ListOkIffAllTokensNumeric(s: string)
    requires s != ""
    ensures ParsedList(s).Ok? <==> AllNumeric(Tokens(s))
    ensures ParsedList(s).Ok? ==>
              |ParsedList(s).value| == |Tokens(s)| &&
              forall k :: 0 <= k < |Tokens(s)| ==> ParsedList(s).value[k] == ToNumber(Tokens(s)[k])
  {
  }

  /** Entries written with delimiters (one separator, or a comma and one white-space character)
      between them parse to their values, in order. */
  lemma ListOfDelimitedEntries(ts: seq<string>, seps: seq<string>)
    requires |ts| == |seps| + 1 && AllNumeric(ts)
    requires forall k :: 0 <= k < |seps| ==> IsDelimiter(seps[k])
    ensures ParsedList(Interleave(ts, seps)) == Ok(Numbers(ts))
  {
    forall k | 0 <= k < |ts|
      ensures ts[k] != [] && FreeOf(ts[k], IsSeparator)
    {
      NumericTokenShape(ts[k]);
    }
    TokensOfInterleave(ts, seps);
    assert Interleave(ts, seps) != "" by {
      InterleaveEnds(ts, seps);
    }
  }

  /** A doubled comma anywhere fails the whole list. */
  lemma ListDoubleCommaFails(a: string, b: string)
    ensures ParsedList(a + ",," + b) == Fail
  {
    DoubleCommaEmptyToken(a, b);
    EmptyTokenNotNumeric();
    assert (a + ",," + b) != "" by {
      assert |a + ",," + b| >= 2;
    }
  }

  /** Non-empty input of white space only fails: it trims to one empty token. */
  lemma ListBlankFails(s: string)
    requires s != "" && forall i :: 0 <= i < |s| ==> IsSpace(s[i])
    ensures ParsedList(s) == Fail
  {
    BlankTokens(s);
    EmptyTokenNotNumeric();
    assert Tokens(s)[0] == "";
    assert !AllNumeric(Tokens(s));
  }

  /** "1, 2,3" and "1 2 3" both give [1, 2, 3]. */
  lemma ListExamples()
    ensures ParsedList("1, 2,3") == Ok([1.0, 2.0, 3.0])
    ensures ParsedList("1 2 3") == Ok([1.0, 2.0, 3.0])
  {
    assert ParsedList("1, 2,3") == Ok([1.0, 2.0, 3.0]) by {
      ThreeDigits('1', '2', '3', [", ", ","], "1, 2,3");
    }
    assert ParsedList("1 2 3") == Ok([1.0, 2.0, 3.0]) by {
      ThreeDigits('1', '2', '3', [" ", " "], "1 2 3");
    }
  }

  /** Three one-digit entries separated by two delimiters. */
  lemma ThreeDigits(x: char, y: char, z: char, seps: seq<string>, s: string)
    requires IsDigit(x) && IsDigit(y) && IsDigit(z)
    requires |seps| == 2 && IsDelimiter(seps[0]) && IsDelimiter(seps[1])
    requires s == [x] + seps[0] + [y] + seps[1] + [z]
    ensures ParsedList(s) == Ok([DigitValue(x), DigitValue(y), DigitValue(z)])
  {
    var ts := [[x], [y], [z]];
    var xs := [DigitValue(x), DigitValue(y), DigitValue(z)];
    assert AllNumeric(ts) && Numbers(ts) == xs by {
      NumbersOfDigits(ts, xs);
    }
    assert Interleave(ts, seps) == s by {
      InterleaveThree(ts, seps);
    }
    assert forall k :: 0 <= k < |seps| ==> IsDelimiter(seps[k]);
    ListOfDelimitedEntries(ts, seps);
  }

  /** Tokens of one digit each denote their digits. */
  lemma NumbersOfDigits(ts: seq<string>, xs: seq<real>)
    requires |ts| == |xs|
    requires forall k :: 0 <= k < |ts| ==>
               |ts[k]| == 1 && IsDigit(ts[k][0]) && xs[k] == DigitValue(ts[k][0])
    ensures AllNumeric(ts) && Numbers(ts) == xs
  {
    forall k | 0 <= k < |ts|
      ensures IsNumericToken(ts[k]) && ToNumber(ts[k]) == xs[k]
    {
      SingleDigit(ts[k]);
    }
  }

  lemma InterleaveThree(ts: seq<string>, seps: seq<string>)
    requires |ts| == 3 && |seps| == 2
    ensures Interleave(ts, seps) == ts[0] + seps[0] + ts[1] + seps[1] + ts[2]
  {
    assert Interleave(ts[2..], seps[2..]) == ts[2];
    assert Interleave(ts[1..], seps[1..]) == ts[1] + seps[1] + ts[2];
  }

  /** Two white-space characters in a row inside the text fail the list: they enclose an empty
      token.  This is how a line ending in a space, followed by a newline, fails. */
  lemma ListAdjacentSpacesFail(a: string, s1: char, s2: char, b: string)
    requires a != [] && !IsSpace(a[0]) && a[|a| - 1] != ','
    requires IsSpace(s1) && IsSpace(s2)
    requires b != [] && !IsSpace(b[|b| - 1])
    ensures ParsedList(a + [s1, s2] + b) == Fail
  {
    AdjacentSpacesEmptyToken(a, s1, s2, b);
    var ts := Tokens(a + [s1, s2] + b);
    var k := |SplitWhere(DropSpaceAfterComma(a), IsSeparator)|;
    assert ts[k] == [];
    EmptyTokenNotNumeric();
    assert !AllNumeric(ts);
  }

  /** Two separators in a row inside the text fail the list, whatever surrounds them: two commas,
      two white-space characters (also after a comma, as in "1,  2"), or a white-space character
      before a comma, as in "1 ,2". */
  lemma ListDoubledSeparatorFails(a: string, c1: char, c2: char, b: string)
    requires a != [] && !IsSpace(a[0]) && b != [] && !IsSpace(b[|b| - 1])
    requires IsSeparator(c1) && IsSeparator(c2) && !(c1 == ',' && IsSpace(c2))
    ensures ParsedList(a + [c1, c2] + b) == Fail
  {
    DoubledSeparatorEmptyToken(a, c1, c2, b);
    EmptyTokenNotNumeric();
  }

  /** "1,  2" (a comma and two spaces) and "1 ,2" (a space before the comma) both fail. */
  lemma DoubledSeparatorExamples()
    ensures ParsedList("1,  2") == Fail && ParsedList("1 ,2") == Fail
  {
    assert "1,  2" == "1," + [' ', ' '] + "2";
    ListDoubledSeparatorFails("1,", ' ', ' ', "2");
    assert "1 ,2" == "1" + [' ', ','] + "2";
    ListDoubledSeparatorFails("1", ' ', ',', "2");
  }

  /** White space after the last entry of a line is trimmed away. */
  lemma ListTrailingSpace(s: string, ws: string)
    requires s != [] && !IsSpace(s[0]) && !IsSpace(s[|s| - 1])
    requires forall i :: 0 <= i < |ws| ==> IsSpace(ws[i])
    ensures ParsedList(s + ws) == ParsedList(s)
  {
    TrailingSpaceIgnored(s, ws);
  }

  /** "1,a,3" fails. */
  lemma ListExampleLetter()
    ensures ParsedList("1,a,3") == Fail
  {
    var bad := ["1", "a", "3"];
    var s := "1,a,3";
    assert s != "";
    LetterTokens(bad, s);
    assert !IsNumericToken(bad[1]) by {
      DigitLiterals();
    }
    assert !AllNumeric(Tokens(s));
  }

  /** A well-formed literal too large for a double is not numeric, so a list holding it fails. */
  lemma ListOverflowFails()
    ensures ParsedList("1e400") == Fail
  {
    var s := "1e400";
    assert FreeOf(s, IsSeparator);
    assert Interleave([s], []) == s;
    TokensOfInterleave([s], []);
    OverflowLiteral();
    assert !AllNumeric(Tokens(s));
  }

  lemma LetterTokens(bad: seq<string>, s: string)
    requires bad == ["1", "a", "3"] && s == "1,a,3"
    ensures Tokens(s) == bad
  {
    assert forall k :: 0 <= k < 3 ==> bad[k] != [] && FreeOf(bad[k], IsSeparator);
    InterleaveThree(bad, [",", ","]);
    assert bad[0] + "," + bad[1] + "," + bad[2] == s;
    TokensOfInterleave(bad, [",", ","]);
  }

  // ---------------------------------------------------------------------------------------------
  // Properties of parseMatrix

  lemma {:induction false} MatrixAbsentIffEmpty(s: string)
    ensures ParsedMatrix(s).Absent? <==> s == ""
  {
  }

  /** A text that ends in a newline has an empty last line, so the matrix fails. */
  lemma MatrixTrailingNewlineFails(s: string)
    ensures ParsedMatrix(s + "\n") == Fail
  {
    TrailingNewlineLine(s);
    var ls := Lines(s + "\n");
    assert ls[|ls| - 1] == "";
    assert !ParsedList(ls[|ls| - 1]).Ok?;
  }

  /** Lines that each parse, joined by newlines, give back one row per line in order; rows may
      have different lengths. */
  lemma MatrixOfLines(ls: seq<string>)
    requires |ls| >= 1 && AllLinesParse(ls)
    requires forall k :: 0 <= k < |ls| ==> FreeOf(ls[k], IsNewline)
    ensures ParsedMatrix(JoinWith(ls, "\n")) == Ok(Rows(ls))
  {
    SplitJoin(ls, '\n', IsNewline);
    assert ParsedList(ls[0]).Ok?;
    JoinStartsWithFirst(ls, "\n");
  }

  lemma {:induction false} JoinStartsWithFirst(ls: seq<string>, sep: string)
    requires |ls| >= 1
    ensures |JoinWith(ls, sep)| >= |ls[0]|
  {
  }

  /** Two rows of two one-digit entries, such as "1,2\n3,4", give the 2 x 2 matrix of the
      digits, such as [[1, 2], [3, 4]]. */
  lemma MatrixExample(x: char, y: char, z: char, w: char)
    requires IsDigit(x) && IsDigit(y) && IsDigit(z) && IsDigit(w)
    ensures ParsedMatrix([x, ',', y, '\n', z, ',', w]) ==
      Ok([[DigitValue(x), DigitValue(y)], [DigitValue(z), DigitValue(w)]])
  {
    var l0, l1 := [x, ',', y], [z, ',', w];
    DigitPairLine(x, y);
    DigitPairLine(z, w);
    PairLinesText(x, y, z, w);
    TwoLines(l0, l1, [DigitValue(x), DigitValue(y)], [DigitValue(z), DigitValue(w)],
             [x, ',', y, '\n', z, ',', w]);
  }

  lemma PairLinesText(x: char, y: char, z: char, w: char)
    ensures [x, ',', y, '\n', z, ',', w] == [x, ',', y] + "\n" + [z, ',', w]
  {
    assert [x, ',', y] + "\n" == [x, ',', y, '\n'];
  }

  /** The weights "0.5,0.5" give the list [0.5, 0.5]. */
  lemma HalvesList()
    ensures ParsedList("0.5,0.5") == Ok([0.5, 0.5])
  {
    HalfLiteral();
    TwoEntries("0.5", "0.5", "0.5,0.5", 0.5, 0.5);
  }

  /** Two numeric entries separated by a comma. */
  lemma TwoEntries(a: string, b: string, s: string, x: real, y: real)
    requires IsNumericToken(a) && ToNumber(a) == x && IsNumericToken(b) && ToNumber(b) == y
    requires s == a + "," + b
    ensures ParsedList(s) == Ok([x, y])
  {
    TwoNumbers(a, b, x, y);
    TwoInterleaved(a, b, s);
    ListOfDelimitedEntries([a, b], [","]);
  }

  lemma TwoNumbers(a: string, b: string, x: real, y: real)
    requires IsNumericToken(a) && ToNumber(a) == x && IsNumericToken(b) && ToNumber(b) == y
    ensures AllNumeric([a, b]) && Numbers([a, b]) == [x, y]
  {
    var ts, xs := [a, b], [x, y];
    forall k | 0 <= k < 2
      ensures IsNumericToken(ts[k]) && ToNumber(ts[k]) == xs[k]
    {
      if k == 0 { assert ts[k] == a; } else { assert ts[k] == b; }
    }
    NumbersOfTokens(ts, xs);
  }

  /** Tokens that each denote the corresponding number. */
  lemma NumbersOfTokens(ts: seq<string>, xs: seq<real>)
    requires |ts| == |xs|
    requires forall k :: 0 <= k < |ts| ==> IsNumericToken(ts[k]) && ToNumber(ts[k]) == xs[k]
    ensures AllNumeric(ts) && Numbers(ts) == xs
  {
  }

  lemma TwoInterleaved(a: string, b: string, s: string)
    requires s == a + "," + b
    ensures Interleave([a, b], [","]) == s
  {
    assert [a, b][1..] == [b];
  }

  /** Three lines of two digits each, "1,2\n3,4\n5,6", give the 3 x 2 matrix of the digits. */
  lemma ThreeRowsExample()
    ensures ParsedMatrix("1,2\n3,4\n5,6") == Ok([[1.0, 2.0], [3.0, 4.0], [5.0, 6.0]])
  {
    ThreeDigitPairs('1', '2', '3', '4', '5', '6', "1,2\n3,4\n5,6");
  }

  lemma ThreeDigitPairs(x0: char, y0: char, x1: char, y1: char, x2: char, y2: char, s: string)
    requires IsDigit(x0) && IsDigit(y0) && IsDigit(x1) && IsDigit(y1) && IsDigit(x2) && IsDigit(y2)
    requires s == [x0, ',', y0, '\n', x1, ',', y1, '\n', x2, ',', y2]
    ensures ParsedMatrix(s) == Ok([[DigitValue(x0), DigitValue(y0)], [DigitValue(x1), DigitValue(y1)],
                                   [DigitValue(x2), DigitValue(y2)]])
  {
    var l0, l1, l2 := [x0, ',', y0], [x1, ',', y1], [x2, ',', y2];
    DigitPairLine(x0, y0);
    DigitPairLine(x1, y1);
    DigitPairLine(x2, y2);
    ThreeLinesText(x0, y0, x1, y1, x2, y2);
    ThreeLines(l0, l1, l2, [DigitValue(x0), DigitValue(y0)], [DigitValue(x1), DigitValue(y1)],
               [DigitValue(x2), DigitValue(y2)], s);
  }

  lemma ThreeLinesText(x0: char, y0: char, x1: char, y1: char, x2: char, y2: char)
    ensures [x0, ',', y0, '\n', x1, ',', y1, '\n', x2, ',', y2] ==
      [x0, ',', y0] + "\n" + [x1, ',', y1] + "\n" + [x2, ',', y2]
  {
    assert [x0, ',', y0] + "\n" == [x0, ',', y0, '\n'];
    assert [x0, ',', y0, '\n'] + [x1, ',', y1] == [x0, ',', y0, '\n', x1, ',', y1];
    assert [x0, ',', y0, '\n', x1, ',', y1] + "\n" == [x0, ',', y0, '\n', x1, ',', y1, '\n'];
  }

  /** Three lines that each parse and hold no newline give the matrix of their rows. */
  lemma ThreeLines(l0: string, l1: string, l2: string, r0: seq<real>, r1: seq<real>, r2: seq<real>,
                   s: string)
    requires ParsedList(l0) == Ok(r0) && ParsedList(l1) == Ok(r1) && ParsedList(l2) == Ok(r2)
    requires FreeOf(l0, IsNewline) && FreeOf(l1, IsNewline) && FreeOf(l2, IsNewline)
    requires s == l0 + "\n" + l1 + "\n" + l2
    ensures ParsedMatrix(s) == Ok([r0, r1, r2])
  {
    var ls, rows := [l0, l1, l2], [r0, r1, r2];
    forall k | 0 <= k < 3
      ensures ParsedList(ls[k]) == Ok(rows[k]) && FreeOf(ls[k], IsNewline)
    {
      if k == 0 { assert ls[k] == l0; } else if k == 1 { assert ls[k] == l1; } else { assert ls[k] == l2; }
    }
    RowsOfLines(ls, rows);
    ThreeJoined(l0, l1, l2, s);
    MatrixOfLines(ls);
  }

  /** Lines that each parse to the corresponding row. */
  lemma RowsOfLines(ls: seq<string>, rows: seq<seq<real>>)
    requires |ls| == |rows|
    requires forall k :: 0 <= k < |ls| ==> ParsedList(ls[k]) == Ok(rows[k])
    ensures AllLinesParse(ls) && Rows(ls) == rows
  {
  }

  lemma ThreeJoined(l0: string, l1: string, l2: string, s: string)
    requires s == l0 + "\n" + l1 + "\n" + l2
    ensures JoinWith([l0, l1, l2], "\n") == s
  {
    var ls := [l0, l1, l2];
    assert ls[1..] == [l1, l2] && ls[1..][1..] == [l2];
    assert JoinWith(ls[1..], "\n") == l1 + "\n" + l2;
  }

  lemma DigitPairLine(x: char, y: char)
    requires IsDigit(x) && IsDigit(y)
    ensures ParsedList([x, ',', y]) == Ok([DigitValue(x), DigitValue(y)])
    ensures FreeOf([x, ',', y], IsNewline)
  {
    assert [x, ',', y] == [x] + "," + [y];
    TwoNumberLine([x], [y], [x, ',', y], DigitValue(x), DigitValue(y));
    assert FreeOf([x, ',', y], IsNewline) by {
      NoNewlineInDigitPair(x, y);
    }
  }

  lemma NoNewlineInDigitPair(x: char, y: char)
    requires IsDigit(x) && IsDigit(y)
    ensures FreeOf([x, ',', y], IsNewline)
  {
  }

  lemma TwoLines(l0: string, l1: string, r0: seq<real>, r1: seq<real>, s: string)
    requires ParsedList(l0) == Ok(r0) && ParsedList(l1) == Ok(r1)
    requires FreeOf(l0, IsNewline) && FreeOf(l1, IsNewline)
    requires s == l0 + "\n" + l1
    ensures ParsedMatrix(s) == Ok([r0, r1])
  {
    var ls := [l0, l1];
    assert JoinWith(ls, "\n") == s;
    MatrixOfLines(ls);
    assert Rows(ls) == [r0, r1];
  }

  lemma TwoNumberLine(a: string, b: string, s: string, x: real, y: real)
    requires |a| == 1 && IsDigit(a[0]) && x == DigitValue(a[0])
    requires |b| == 1 && IsDigit(b[0]) && y == DigitValue(b[0])
    requires s == a + "," + b
    ensures ParsedList(s) == Ok([x, y])
  {
    NumbersOfDigits([a, b], [x, y]);
    assert Interleave([a, b], [","]) == s;
    ListOfDelimitedEntries([a, b], [","]);
  }

  /** "1,0 \n0,1" and the like: each line parses, so the matrix is the 2 x 2 matrix of the
      digits, but the whole text read as one list fails, because the space and the newline in a
      row enclose an empty token. */
  lemma SpaceBeforeNewline(x: char, y: char, z: char, w: char)
    requires IsDigit(x) && IsDigit(y) && IsDigit(z) && IsDigit(w)
    ensures ParsedMatrix([x, ',', y, ' ', '\n', z, ',', w]) ==
      Ok([[DigitValue(x), DigitValue(y)], [DigitValue(z), DigitValue(w)]])
    ensures ParsedList([x, ',', y, ' ', '\n', z, ',', w]) == Fail
  {
    var l0, l1 := [x, ',', y], [z, ',', w];
    SpaceLineMatrix(l0, l1, x, y, z, w, [x, ',', y, ' ', '\n', z, ',', w]);
    SpaceLineList(l0, l1, [x, ',', y, ' ', '\n', z, ',', w]);
  }

  lemma SpaceLineMatrix(l0: string, l1: string, x: char, y: char, z: char, w: char, s: string)
    requires IsDigit(x) && IsDigit(y) && IsDigit(z) && IsDigit(w)
    requires l0 == [x, ',', y] && l1 == [z, ',', w] && s == l0 + [' '] + "\n" + l1
    ensures ParsedMatrix(s) == Ok([[DigitValue(x), DigitValue(y)], [DigitValue(z), DigitValue(w)]])
  {
    DigitPairLine(x, y);
    DigitPairLine(z, w);
    ListTrailingSpace(l0, [' ']);
    TwoLines(l0 + [' '], l1, [DigitValue(x), DigitValue(y)], [DigitValue(z), DigitValue(w)], s);
  }

  lemma SpaceLineList(l0: string, l1: string, s: string)
    requires |l0| == 3 && !IsSpace(l0[0]) && l0[2] != ','
    requires |l1| == 3 && !IsSpace(l1[2])
    requires s == l0 + [' ', '\n'] + l1
    ensures ParsedList(s) == Fail
  {
    ListAdjacentSpacesFail(l0, ' ', '\n', l1);
  }
}
