/** The string operations varcalc.js borrows from JavaScript's String.prototype when it tokenises
    a list: `trim`, the global replacement of `,\s` by `,`, and `split` on single separator
    characters.  All of them are pure functions on strings. */
module Lexing {

  /** The characters JavaScript's `\s` class matches; `String.prototype.trim` removes the same set:
      tab, line feed, vertical tab, form feed, carriage return and space, and the Unicode spaces
      and line terminators from U+00A0 on. */
  predicate IsSpace(c: char) {
    if c <= ' ' then c == ' ' || ('\t' <= c <= '\r')
    else c >= '\U{00A0}' && IsWideSpace(c)
  }

  predicate IsWideSpace(c: char) {
    c == '\U{00A0}' || c == '\U{1680}' || ('\U{2000}' <= c <= '\U{200A}') ||
    c == '\U{2028}' || c == '\U{2029}' || c == '\U{202F}' || c == '\U{205F}' ||
    c == '\U{3000}' || c == '\U{FEFF}'
  }

  /** One character of the `[\s,]` class that list parsing splits on. */
  predicate IsSeparator(c: char) {
    IsSpace(c) || c == ','
  }

  predicate IsNewline(c: char) {
    c == '\n'
  }

  /** No character of `s` satisfies `isSep`. */
  predicate FreeOf(s: string, isSep: char -> bool) {
    forall i :: 0 <= i < |s| ==> !isSep(s[i])
  }

  /** `s` with its leading white space removed. */
  function TrimStart(s: string): (r: string)
    ensures |r| <= |s| && r == s[|s| - |r|..]
    ensures r == [] || !IsSpace(r[0])
    ensures forall i :: 0 <= i < |s| - |r| ==> IsSpace(s[i])
  {
    if |s| > 0 && IsSpace(s[0]) then TrimStart(s[1..]) else s
  }

  /** `s` with its trailing white space removed. */
  function TrimEnd(s: string): (r: string)
    ensures |r| <= |s| && r == s[..|r|]
    ensures r == [] || !IsSpace(r[|r| - 1])
    ensures forall i :: |r| <= i < |s| ==> IsSpace(s[i])
  {
    if |s| > 0 && IsSpace(s[|s| - 1]) then TrimEnd(s[..|s| - 1]) else s
  }

  /** How many leading white-space characters `String.prototype.trim` removes from `s`. */
  function TrimOffset(s: string): nat {
    |s| - |TrimStart(s)|
  }

  /** `String.prototype.trim`: the infix of `s` starting at `TrimOffset(s)` that neither starts
      nor ends with white space, everything around it being white space. */
  function Trim(s: string): (r: string)
    ensures TrimOffset(s) + |r| <= |s| && r == s[TrimOffset(s)..TrimOffset(s) + |r|]
    ensures forall i :: 0 <= i < TrimOffset(s) ==> IsSpace(s[i])
    ensures forall i :: TrimOffset(s) + |r| <= i < |s| ==> IsSpace(s[i])
    ensures r == [] || (!IsSpace(r[0]) && !IsSpace(r[|r| - 1]))
  {
    var t := TrimStart(s);
    var r := TrimEnd(t);
    assert r == s[|s| - |t|..|s| - |t| + |r|];
    r
  }

  /** `s.replace(/,\s/g, ",")`: scanning left to right, every comma followed by one white-space
      character loses that character.  Matches never overlap, since a comma is not white space. */
  function DropSpaceAfterComma(s: string): (r: string)
    ensures |r| <= |s|
  {
    if |s| >= 2 && s[0] == ',' && IsSpace(s[1]) then [','] + DropSpaceAfterComma(s[2..])
    else if s == [] then []
    else [s[0]] + DropSpaceAfterComma(s[1..])
  }

  /** `s.split(re)` for a pattern `re` that matches exactly one character satisfying `isSep`:
      the maximal pieces between separators, so that k separators give k + 1 pieces (the empty
      string gives one empty piece). */
  function SplitWhere(s: string, isSep: char -> bool): (r: seq<string>)
    ensures |r| >= 1
    ensures forall k, i :: 0 <= k < |r| && 0 <= i < |r[k]| ==> !isSep(r[k][i])
  {
    if s == [] then [[]]
    else
      var rest := SplitWhere(s[1..], isSep);
      if isSep(s[0]) then [[]] + rest
      else [[s[0]] + rest[0]] + rest[1..]
  }

  /** The tokens `parseList` checks and converts: trim, drop the white space after commas, split
      on every single separator. */
  function Tokens(s: string): seq<string> {
    SplitWhere(DropSpaceAfterComma(Trim(s)), IsSeparator)
  }

  /** The lines `parseMatrix` parses: `s.split("\n")`. */
  function Lines(s: string): seq<string> {
    SplitWhere(s, IsNewline)
  }

  /** `ts[0] + seps[0] + ts[1] + ... + ts[|ts| - 1]`. */
  function Interleave(ts: seq<string>, seps: seq<string>): string
    requires |ts| == |seps| + 1
  {
    if seps == [] then ts[0] else ts[0] + seps[0] + Interleave(ts[1..], seps[1..])
  }

  /** `ts` joined by one and the same separator, as `Array.prototype.join` does. */
  function JoinWith(ts: seq<string>, sep: string): string
    requires |ts| >= 1
  {
    if |ts| == 1 then ts[0] else ts[0] + sep + JoinWith(ts[1..], sep)
  }

  /** A delimiter a user may write between two list entries without creating an empty token:
      one separator character, or a comma followed by one white-space character. */
  predicate IsDelimiter(d: string) {
    (|d| == 1 && IsSeparator(d[0])) || (|d| == 2 && d[0] == ',' && IsSpace(d[1]))
  }

  // ---------------------------------------------------------------------------------------------
  // Splitting

  /** A piece with no separator in it splits into itself. */
  lemma {:induction false} SplitFree(t: string, isSep: char -> bool)
    requires FreeOf(t, isSep)
    ensures SplitWhere(t, isSep) == [t]
  {
    if t != [] {
      SplitFree(t[1..], isSep);
      assert [t[0]] + t[1..] == t;
    }
  }

  /** Splitting is a homomorphism at a separator: the pieces of `p + [c] + q` are the pieces of
      `p` followed by the pieces of `q`. */
  lemma {:induction false} SplitAtSeparator(p: string, c: char, q: string, isSep: char -> bool)
    requires isSep(c)
    ensures SplitWhere(p + [c] + q, isSep) == SplitWhere(p, isSep) + SplitWhere(q, isSep)
  {
    var s := p + [c] + q;
    if p == [] {
      assert s[1..] == q;
    } else {
      assert s[1..] == p[1..] + [c] + q;
      SplitAtSeparator(p[1..], c, q, isSep);
    }
  }

  /** Joining separator-free pieces with a separator character and splitting again gives the
      pieces back. */
  lemma {:induction false} SplitJoin(ts: seq<string>, c: char, isSep: char -> bool)
    requires |ts| >= 1 && isSep(c)
    requires forall k :: 0 <= k < |ts| ==> FreeOf(ts[k], isSep)
    ensures SplitWhere(JoinWith(ts, [c]), isSep) == ts
  {
    if |ts| == 1 {
      SplitFree(ts[0], isSep);
    } else {
      SplitJoin(ts[1..], c, isSep);
      SplitAtSeparator(ts[0], c, JoinWith(ts[1..], [c]), isSep);
      SplitFree(ts[0], isSep);
      assert ts == [ts[0]] + ts[1..];
    }
  }

  /** A trailing newline adds one empty line. */
  lemma TrailingNewlineLine(s: string)
    ensures Lines(s + "\n") == Lines(s) + [""]
  {
    assert s + "\n" == s + ['\n'] + [];
    SplitAtSeparator(s, '\n', [], IsNewline);
  }

  // ---------------------------------------------------------------------------------------------
  // Trimming

  /** Trimming changes nothing when there is no white space at either end. */
  lemma TrimUnchanged(s: string)
    requires s == [] || (!IsSpace(s[0]) && !IsSpace(s[|s| - 1]))
    ensures Trim(s) == s
  {
    assert TrimStart(s) == s;
  }

  /** A string made of white space only trims to the empty string. */
  lemma TrimAllSpace(s: string)
    requires forall i :: 0 <= i < |s| ==> IsSpace(s[i])
    ensures Trim(s) == []
  {
  }

  /** Trimming keeps any non-empty infix that neither starts nor ends with white space, and only
      trims what lies before and after it. */
  lemma TrimKeepsInfix(a: string, m: string, b: string)
    requires m != [] && !IsSpace(m[0]) && !IsSpace(m[|m| - 1])
    ensures Trim(a + m + b) == TrimStart(a) + m + TrimEnd(b)
  {
    TrimStartOfInfix(a, m, b);
    TrimEndOfInfix(TrimStart(a), m, b);
    TrimOfParts(a + m + b, TrimStart(a) + m + b, TrimStart(a) + m + TrimEnd(b));
  }

  lemma {:induction false} TrimStartOfInfix(a: string, m: string, b: string)
    requires m != [] && !IsSpace(m[0])
    ensures TrimStart(a + m + b) == TrimStart(a) + m + b
  {
    var s := a + m + b;
    if a == [] {
      assert s[0] == m[0];
    } else if IsSpace(a[0]) {
      assert s[1..] == a[1..] + m + b;
      TrimStartOfInfix(a[1..], m, b);
    } else {
      assert s[0] == a[0];
    }
  }

  lemma TrimEndOfInfix(t: string, m: string, b: string)
    requires m != [] && !IsSpace(m[|m| - 1])
    ensures TrimEnd(t + m + b) == t + m + TrimEnd(b)
  {
    assert (t + m)[|t + m| - 1] == m[|m| - 1];
    TrimEndAfter(t + m, b);
  }

  /** `Trim` is `TrimStart` followed by `TrimEnd`. */
  lemma TrimOfParts(s: string, t: string, r: string)
    requires TrimStart(s) == t && TrimEnd(t) == r
    ensures Trim(s) == r
  {
  }

  /** Trailing white space is trimmed back to the last character that is not white space. */
  lemma {:induction false} TrimEndAfter(x: string, b: string)
    requires x != [] && !IsSpace(x[|x| - 1])
    ensures TrimEnd(x + b) == x + TrimEnd(b)
  {
    if b == [] {
      assert x + b == x;
    } else if IsSpace(b[|b| - 1]) {
      assert (x + b)[..|x + b| - 1] == x + b[..|b| - 1];
      TrimEndAfter(x, b[..|b| - 1]);
    }
  }

  // ---------------------------------------------------------------------------------------------
  // Dropping the white space after commas

  /** A prefix without commas passes through unchanged. */
  lemma {:induction false} DropSpaceCommaFree(t: string, rest: string)
    requires forall i :: 0 <= i < |t| ==> t[i] != ','
    ensures DropSpaceAfterComma(t + rest) == t + DropSpaceAfterComma(rest)
  {
    if t == [] {
      assert t + rest == rest;
    } else {
      var s := t + rest;
      assert s[0] == t[0] && s[0] != ',';
      assert s[1..] == t[1..] + rest;
      DropSpaceCommaFree(t[1..], rest);
      assert [t[0]] + t[1..] == t;
    }
  }

  /** The replacement distributes over a concatenation unless the cut falls between a comma and
      the white space it would swallow. */
  lemma {:induction false} DropSpaceConcat(x: string, y: string)
    requires !(|x| > 0 && x[|x| - 1] == ',' && |y| > 0 && IsSpace(y[0]))
    ensures DropSpaceAfterComma(x + y) == DropSpaceAfterComma(x) + DropSpaceAfterComma(y)
    decreases |x|, 1
  {
    if x == [] {
      assert x + y == y;
    } else if |x| >= 2 && x[0] == ',' && IsSpace(x[1]) {
      DropSpacePair(x, y);
    } else {
      DropSpaceSingle(x, y);
    }
  }

  lemma {:induction false} DropSpacePair(x: string, y: string)
    requires !(|x| > 0 && x[|x| - 1] == ',' && |y| > 0 && IsSpace(y[0]))
    requires |x| >= 2 && x[0] == ',' && IsSpace(x[1])
    ensures DropSpaceAfterComma(x + y) == DropSpaceAfterComma(x) + DropSpaceAfterComma(y)
    decreases |x|, 0
  {
    var s := x + y;
    assert s[0] == ',' && s[1] == x[1];
    assert s[2..] == x[2..] + y;
    assert DropSpaceAfterComma(s) == [','] + DropSpaceAfterComma(x[2..] + y);
    DropSpaceConcat(x[2..], y);
  }

  lemma {:induction false} DropSpaceSingle(x: string, y: string)
    requires !(|x| > 0 && x[|x| - 1] == ',' && |y| > 0 && IsSpace(y[0]))
    requires x != [] && !(|x| >= 2 && x[0] == ',' && IsSpace(x[1]))
    ensures DropSpaceAfterComma(x + y) == DropSpaceAfterComma(x) + DropSpaceAfterComma(y)
    decreases |x|, 0
  {
    var s := x + y;
    assert s[0] == x[0];
    assert s[1..] == x[1..] + y;
    assert !(|s| >= 2 && s[0] == ',' && IsSpace(s[1]));
    assert DropSpaceAfterComma(s) == [x[0]] + DropSpaceAfterComma(x[1..] + y);
    DropSpaceConcat(x[1..], y);
  }

  /** `y` without the one white-space character a comma just before it would swallow. */
  function SkipSpace(y: string): (r: string)
    ensures r == y || (y != [] && IsSpace(y[0]) && r == y[1..])
  {
    if y != [] && IsSpace(y[0]) then y[1..] else y
  }

  /** A comma swallows the white-space character after it, and only that one. */
  lemma AfterComma(y: string)
    ensures DropSpaceAfterComma([','] + y) == [','] + DropSpaceAfterComma(SkipSpace(y))
  {
    var s := [','] + y;
    if y != [] && IsSpace(y[0]) {
      assert s[1] == y[0] && s[2..] == y[1..];
    } else {
      assert s[1..] == y;
    }
  }

  /** Any other character passes through. */
  lemma AfterOther(c: char, y: string)
    requires c != ','
    ensures DropSpaceAfterComma([c] + y) == [c] + DropSpaceAfterComma(y)
  {
    assert ([c] + y)[1..] == y;
  }

  /** The replacement leaves a doubled comma in place; only the second comma may swallow the
      white space after it. */
  lemma DropSpaceKeepsDoubleComma(a: string, b: string)
    ensures DropSpaceAfterComma(a + ",," + b) ==
      DropSpaceAfterComma(a) + ",," + DropSpaceAfterComma(SkipSpace(b))
  {
    var tail := [','] + b;
    assert a + ",," + b == a + ([','] + tail);
    DropSpaceConcat(a, [','] + tail);
    AfterComma(tail);
    assert SkipSpace(tail) == tail;
    AfterComma(b);
  }

  // ---------------------------------------------------------------------------------------------
  // Tokens

  /** Separator-free, non-empty entries written with delimiters tokenise back to the entries,
      in the same order and the same number. */
  lemma TokensOfInterleave(ts: seq<string>, seps: seq<string>)
    requires |ts| == |seps| + 1
    requires forall k :: 0 <= k < |ts| ==> ts[k] != [] && FreeOf(ts[k], IsSeparator)
    requires forall k :: 0 <= k < |seps| ==> IsDelimiter(seps[k])
    ensures Tokens(Interleave(ts, seps)) == ts
  {
    var s := Interleave(ts, seps);
    InterleaveEnds(ts, seps);
    TrimUnchanged(s);
    SplitDropInterleave(ts, seps);
  }

  /** The written form starts with the first character of the first entry and ends with the last
      character of the last one. */
  lemma {:induction false} InterleaveEnds(ts: seq<string>, seps: seq<string>)
    requires |ts| == |seps| + 1
    requires forall k :: 0 <= k < |ts| ==> ts[k] != [] && FreeOf(ts[k], IsSeparator)
    ensures var s := Interleave(ts, seps);
      s != [] && !IsSeparator(s[0]) && !IsSeparator(s[|s| - 1])
  {
    if seps != [] {
      InterleaveEnds(ts[1..], seps[1..]);
      var rest := Interleave(ts[1..], seps[1..]);
      var s := ts[0] + seps[0] + rest;
      assert s[0] == ts[0][0];
      assert s[|s| - 1] == rest[|rest| - 1];
    } else {
      assert ts[0][|ts[0]| - 1] == Interleave(ts, seps)[|Interleave(ts, seps)| - 1];
    }
  }

  lemma {:induction false} SplitDropInterleave(ts: seq<string>, seps: seq<string>)
    requires |ts| == |seps| + 1
    requires forall k :: 0 <= k < |ts| ==> ts[k] != [] && FreeOf(ts[k], IsSeparator)
    requires forall k :: 0 <= k < |seps| ==> IsDelimiter(seps[k])
    ensures SplitWhere(DropSpaceAfterComma(Interleave(ts, seps)), IsSeparator) == ts
  {
    var t := ts[0];
    assert forall i :: 0 <= i < |t| ==> t[i] != ',' by {
      assert FreeOf(t, IsSeparator);
    }
    if seps == [] {
      DropSpaceCommaFree(t, []);
      assert t + [] == t;
      SplitFree(t, IsSeparator);
    } else {
      var rest := Interleave(ts[1..], seps[1..]);
      InterleaveEnds(ts[1..], seps[1..]);
      SplitDropInterleave(ts[1..], seps[1..]);
      SplitDropCons(t, seps[0], rest, ts[1..]);
      assert ts == [t] + ts[1..];
    }
  }

  /** One entry and a delimiter in front of text that tokenises to `tail`. */
  lemma SplitDropCons(t: string, d: string, rest: string, tail: seq<string>)
    requires t != [] && FreeOf(t, IsSeparator) && IsDelimiter(d)
    requires rest != [] && !IsSeparator(rest[0])
    requires SplitWhere(DropSpaceAfterComma(rest), IsSeparator) == tail
    ensures SplitWhere(DropSpaceAfterComma(t + d + rest), IsSeparator) == [t] + tail
  {
    assert forall i :: 0 <= i < |t| ==> t[i] != ',' by {
      assert FreeOf(t, IsSeparator);
    }
    assert t + d + rest == t + (d + rest);
    DropSpaceCommaFree(t, d + rest);
    var c := d[0];
    DropDelimiter(d, rest);
    SplitAtSeparator(t, c, DropSpaceAfterComma(rest), IsSeparator);
    assert t + ([c] + DropSpaceAfterComma(rest)) == t + [c] + DropSpaceAfterComma(rest);
    SplitFree(t, IsSeparator);
  }

  /** A delimiter in front of an entry shrinks to its first character. */
  lemma DropDelimiter(d: string, rest: string)
    requires IsDelimiter(d) && rest != [] && !IsSeparator(rest[0])
    ensures DropSpaceAfterComma(d + rest) == [d[0]] + DropSpaceAfterComma(rest)
  {
    if |d| == 2 {
      assert d + rest == [','] + ([d[1]] + rest);
      AfterComma([d[1]] + rest);
      assert ([d[1]] + rest)[1..] == rest;
    } else if d[0] == ',' {
      assert d == [','];
      AfterComma(rest);
    } else {
      assert d == [d[0]];
      AfterOther(d[0], rest);
    }
  }

  /** A doubled comma anywhere in the input produces an empty token. */
  lemma DoubleCommaEmptyToken(a: string, b: string)
    ensures exists k :: 0 <= k < |Tokens(a + ",," + b)| && Tokens(a + ",," + b)[k] == []
  {
    TrimKeepsInfix(a, ",,", b);
    var a', b' := TrimStart(a), TrimEnd(b);
    DropSpaceKeepsDoubleComma(a', b');
    var p := DropSpaceAfterComma(a');
    var q := DropSpaceAfterComma(SkipSpace(b'));
    SplitDoubleComma(p, q);
    var k := |SplitWhere(p, IsSeparator)|;
    assert Tokens(a + ",," + b) == SplitWhere(p + ",," + q, IsSeparator);
    assert Tokens(a + ",," + b)[k] == [];
  }

  lemma SplitDoubleComma(p: string, q: string)
    ensures var pieces := SplitWhere(p + ",," + q, IsSeparator);
      |SplitWhere(p, IsSeparator)| < |pieces| && pieces[|SplitWhere(p, IsSeparator)|] == []
  {
    var rest := [','] + q;
    assert p + ",," + q == p + [','] + rest;
    SplitAtSeparator(p, ',', rest, IsSeparator);
    assert rest[1..] == q;
    assert SplitWhere(rest, IsSeparator) == [[]] + SplitWhere(q, IsSeparator);
  }

  /** Two white-space characters in a row inside the trimmed text produce an empty token between
      the tokens before and after them. */
  lemma AdjacentSpacesEmptyToken(a: string, s1: char, s2: char, b: string)
    requires a != [] && !IsSpace(a[0]) && a[|a| - 1] != ','
    requires IsSpace(s1) && IsSpace(s2)
    requires b != [] && !IsSpace(b[|b| - 1])
    ensures Tokens(a + [s1, s2] + b) ==
      SplitWhere(DropSpaceAfterComma(a), IsSeparator) + [[]] + SplitWhere(DropSpaceAfterComma(b), IsSeparator)
  {
    var s := a + [s1, s2] + b;
    assert s[0] == a[0] && s[|s| - 1] == b[|b| - 1];
    TrimUnchanged(s);
    DropAroundSpaces(a, s1, s2, b);
    SplitAroundSeparators(DropSpaceAfterComma(a), s1, s2, DropSpaceAfterComma(b));
  }

  lemma DropAroundSpaces(a: string, s1: char, s2: char, b: string)
    requires a != [] && a[|a| - 1] != ','
    requires IsSpace(s1) && IsSpace(s2)
    ensures DropSpaceAfterComma(a + [s1, s2] + b) ==
      DropSpaceAfterComma(a) + [s1] + ([s2] + DropSpaceAfterComma(b))
  {
    assert a + [s1, s2] + b == a + ([s1] + ([s2] + b));
    DropSpaceConcat(a, [s1] + ([s2] + b));
    AfterOther(s1, [s2] + b);
    AfterOther(s2, b);
  }

  lemma SplitAroundSeparators(p: string, s1: char, s2: char, q: string)
    requires IsSeparator(s1) && IsSeparator(s2)
    ensures SplitWhere(p + [s1] + ([s2] + q), IsSeparator) ==
      SplitWhere(p, IsSeparator) + [[]] + SplitWhere(q, IsSeparator)
  {
    SplitAtSeparator(p, s1, [s2] + q, IsSeparator);
    assert ([s2] + q)[1..] == q;
  }

  /** Two separators in a row, other than a comma and the white-space character it swallows,
      inside the trimmed text produce an empty token, whatever comes before and after them: two
      commas, two white-space characters, or a white-space character before a comma. */
  lemma DoubledSeparatorEmptyToken(a: string, c1: char, c2: char, b: string)
    requires a != [] && !IsSpace(a[0]) && b != [] && !IsSpace(b[|b| - 1])
    requires IsSeparator(c1) && IsSeparator(c2) && !(c1 == ',' && IsSpace(c2))
    ensures exists k :: 0 <= k < |Tokens(a + [c1, c2] + b)| && Tokens(a + [c1, c2] + b)[k] == []
  {
    var s := a + [c1, c2] + b;
    assert s[0] == a[0] && s[|s| - 1] == b[|b| - 1];
    TrimUnchanged(s);
    var p, x, y, q := DropKeepsSeparatorPair(a, c1, c2, b);
    SplitAroundSeparators(p, x, y, q);
    var k := |SplitWhere(p, IsSeparator)|;
    assert Tokens(s)[k] == [];
  }

  /** The replacement keeps two separators in a row: when a comma before them swallows the first
      (a white-space character), that comma and the second are still two in a row. */
  lemma DropKeepsSeparatorPair(a: string, c1: char, c2: char, b: string)
    returns (p: string, x: char, y: char, q: string)
    requires IsSeparator(c1) && IsSeparator(c2) && !(c1 == ',' && IsSpace(c2))
    ensures IsSeparator(x) && IsSeparator(y)
    ensures DropSpaceAfterComma(a + [c1, c2] + b) == p + [x] + ([y] + q)
  {
    if a != [] && a[|a| - 1] == ',' {
      var a' := a[..|a| - 1];
      assert a + [c1, c2] + b == a' + [','] + [c1, c2] + b;
      y, q := PairAfterComma(a', c1, c2, b);
      p, x := DropSpaceAfterComma(a'), ',';
    } else {
      p := DropSpaceAfterComma(a);
      x, y, q := PairAfterOther(a, c1, c2, b);
    }
  }

  /** The pair after a comma: the comma and the second separator, or the comma and the first,
      are two in a row. */
  lemma PairAfterComma(a: string, c1: char, c2: char, b: string) returns (y: char, q: string)
    requires IsSeparator(c1) && IsSeparator(c2) && !(c1 == ',' && IsSpace(c2))
    ensures IsSeparator(y)
    ensures DropSpaceAfterComma(a + [','] + [c1, c2] + b) == DropSpaceAfterComma(a) + [','] + ([y] + q)
  {
    var rest := [c1] + ([c2] + b);
    assert a + [','] + [c1, c2] + b == a + ([','] + rest);
    DropSpaceConcat(a, [','] + rest);
    AfterComma(rest);
    if c1 == ',' {
      assert SkipSpace(rest) == [','] + ([c2] + b);
      AfterComma([c2] + b);
      y, q := ',', DropSpaceAfterComma(SkipSpace([c2] + b));
    } else {
      assert SkipSpace(rest) == [c2] + b;
      y := c2;
      q := SeparatorThenRest(c2, b);
    }
  }

  /** The pair after anything but a comma passes through as two separators in a row. */
  lemma PairAfterOther(a: string, c1: char, c2: char, b: string) returns (x: char, y: char, q: string)
    requires !(a != [] && a[|a| - 1] == ',')
    requires IsSeparator(c1) && IsSeparator(c2) && !(c1 == ',' && IsSpace(c2))
    ensures IsSeparator(x) && IsSeparator(y)
    ensures DropSpaceAfterComma(a + [c1, c2] + b) == DropSpaceAfterComma(a) + [x] + ([y] + q)
  {
    var t := [c1] + ([c2] + b);
    assert [c1, c2] + b == t;
    assert a + [c1, c2] + b == a + t;
    DropSpaceConcat(a, t);
    x, y := c1, c2;
    q := PairThenRest(c1, c2, b);
  }

  /** Two separators in a row, not a comma and a white-space character, pass through. */
  lemma PairThenRest(c1: char, c2: char, b: string) returns (q: string)
    requires IsSeparator(c1) && IsSeparator(c2) && !(c1 == ',' && IsSpace(c2))
    ensures DropSpaceAfterComma([c1] + ([c2] + b)) == [c1] + ([c2] + q)
  {
    if c1 == ',' {
      AfterComma([c2] + b);
      assert SkipSpace([c2] + b) == [c2] + b;
    } else {
      AfterOther(c1, [c2] + b);
    }
    q := SeparatorThenRest(c2, b);
  }

  /** A separator passes through the replacement and is followed by what the rest becomes. */
  lemma SeparatorThenRest(c: char, b: string) returns (q: string)
    requires IsSeparator(c)
    ensures DropSpaceAfterComma([c] + b) == [c] + q
  {
    if c == ',' {
      AfterComma(b);
      q := DropSpaceAfterComma(SkipSpace(b));
    } else {
      AfterOther(c, b);
      q := DropSpaceAfterComma(b);
    }
  }

  /** White space after text that is already trimmed changes no token. */
  lemma TrailingSpaceIgnored(s: string, ws: string)
    requires s != [] && !IsSpace(s[0]) && !IsSpace(s[|s| - 1])
    requires forall i :: 0 <= i < |ws| ==> IsSpace(ws[i])
    ensures Tokens(s + ws) == Tokens(s)
  {
    assert Trim(s + ws) == s by {
      TrimKeepsInfix([], s, ws);
      assert [] + s + ws == s + ws;
      assert TrimEnd(ws) == [];
      assert TrimStart([]) + s + [] == s;
    }
    TrimUnchanged(s);
  }

  /** Non-empty input made of white space only yields one empty token. */
  lemma BlankTokens(s: string)
    requires forall i :: 0 <= i < |s| ==> IsSpace(s[i])
    ensures Tokens(s) == [[]]
  {
    TrimAllSpace(s);
  }
}
