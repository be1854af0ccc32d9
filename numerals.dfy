/** The numeric tokens `parseList` accepts (`$.isNumeric`) and the value it stores for each
    (`Number`).  Both are library calls in the original; here they are the decimal-literal part of
    their grammar, evaluated exactly over the reals. */
module Numerals {
  import opened Lexing

  datatype Option<T> = None | Some(value: T)

  predicate IsDigit(c: char) {
    '0' <= c <= '9'
  }

  predicate AllDigits(s: string) {
    forall i :: 0 <= i < |s| ==> IsDigit(s[i])
  }

  /** The number a digit character stands for. */
  function Digit(c: char): (d: nat)
    requires IsDigit(c)
    ensures d <= 9
  {
    (c as int) - ('0' as int)
  }

  /** The value of a digit character. */
  function DigitValue(c: char): (x: real)
    requires IsDigit(c)
    ensures 0.0 <= x <= 9.0
  {
    Digit(c) as real
  }

  /** The characters a decimal literal is written with. */
  predicate IsNumeralChar(c: char) {
    IsDigit(c) || c == '+' || c == '-' || c == '.' || c == 'e' || c == 'E'
  }

  /** The length of the run of digits at the start of `s`. */
  function DigitRun(s: string): (n: nat)
    ensures n <= |s| && AllDigits(s[..n])
    ensures n == |s| || !IsDigit(s[n])
  {
    if |s| > 0 && IsDigit(s[0]) then 1 + DigitRun(s[1..]) else 0
  }

  /** The natural number a string of decimal digits denotes. */
  function Natural(ds: string): nat
    requires AllDigits(ds)
  {
    if ds == [] then 0 else 10 * Natural(ds[..|ds| - 1]) + Digit(ds[|ds| - 1])
  }

  function Pow10(n: nat): (r: nat)
    ensures r >= 1
  {
    if n == 0 then 1 else 10 * Pow10(n - 1)
  }

  /** `10^e` for any integer exponent. */
  function Scale(e: int): (r: real)
    ensures r > 0.0
  {
    if e >= 0 then Pow10(e) as real else 1.0 / (Pow10(-e) as real)
  }

  /** A literal `±digits[.digits][(e|E)±digits]` read as its digit string, the number of those
      digits after the point, and the exponent. */
  datatype Decimal = Decimal(negative: bool, digits: string, fractionDigits: nat, exponent: int)

  function SignLength(s: string): (n: nat)
    ensures n <= |s|
  {
    if |s| > 0 && (s[0] == '+' || s[0] == '-') then 1 else 0
  }

  /** The exponent part of a literal: empty, or `e`/`E`, an optional sign and at least one digit. */
  function ScanExponent(s: string): Option<int> {
    if s == [] then Some(0)
    else if s[0] != 'e' && s[0] != 'E' then None
    else
      var t := s[1..];
      var ds := t[SignLength(t)..];
      if ds != [] && DigitRun(ds) == |ds| then
        assert ds[..|ds|] == ds;
        var n: int := Natural(ds);
        Some(if SignLength(t) == 1 && t[0] == '-' then -n else n)
      else None
  }

  /** Reads a whole token as a decimal literal: an optional sign, digits with an optional point
      (at least one digit on one side of it), then an optional exponent. */
  function ScanDecimal(s: string): (r: Option<Decimal>)
    ensures r.Some? ==> AllDigits(r.value.digits)
  {
    var signLen := SignLength(s);
    match ScanUnsigned(s[signLen..])
    case None => None
    case Some(d) => Some(d.(negative := signLen == 1 && s[0] == '-'))
  }

  /** An unsigned literal: a run of integer digits, then the rest. */
  function ScanUnsigned(body: string): (r: Option<Decimal>)
    ensures r.Some? ==> AllDigits(r.value.digits)
  {
    var intLen := DigitRun(body);
    ScanFraction(body[..intLen], body[intLen..])
  }

  /** After the integer digits: an optional point followed by a run of fraction digits. */
  function ScanFraction(intDigits: string, afterInt: string): (r: Option<Decimal>)
    requires AllDigits(intDigits)
    ensures r.Some? ==> AllDigits(r.value.digits)
  {
    if afterInt != [] && afterInt[0] == '.' then
      var tail := afterInt[1..];
      var fracLen := DigitRun(tail);
      ScanRest(intDigits, tail[..fracLen], tail[fracLen..])
    else ScanRest(intDigits, [], afterInt)
  }

  /** At least one digit before the exponent part, which must end the token. */
  function ScanRest(intDigits: string, fraction: string, rest: string): (r: Option<Decimal>)
    requires AllDigits(intDigits) && AllDigits(fraction)
    ensures r.Some? ==> AllDigits(r.value.digits)
  {
    if |intDigits| + |fraction| == 0 then None
    else
      match ScanExponent(rest)
      case None => None
      case Some(e) => Some(Decimal(false, intDigits + fraction, |fraction|, e))
  }

  /** The least magnitude that `Number` rounds to an infinity: 2^1024 - 2^970, halfway between
      the largest double and 2^1024 (a tie rounds to the even neighbour, which is 2^1024). */
  const Overflow: real := 179769313486231580793728971405303415079934132710037826936173778980444968292764750946649017977587207096330286416692887910946555547851940402630657488671505820681908902000708383676273854845817711531764475730270069855571366959622842914819860834936475292719074168444365510704342711559699508093042880177904174497792.0

  /** A value `Number` yields as a finite double. */
  predicate Finite(x: real) {
    -Overflow < x < Overflow
  }

  /** `$.isNumeric(token)` restricted to decimal literals: the token is a literal whose value is
      finite (a literal that overflows to an infinity is not numeric). */
  predicate IsNumericToken(s: string) {
    ScanDecimal(s).Some? && Finite(DecimalValue(ScanDecimal(s).value))
  }

  function DecimalValue(d: Decimal): real
    requires AllDigits(d.digits)
  {
    var magnitude := (Natural(d.digits) as real) * Scale(d.exponent - d.fractionDigits);
    if d.negative then -magnitude else magnitude
  }

  /** `Number(token)` for a numeric token. */
  function ToNumber(s: string): real
    requires IsNumericToken(s)
  {
    DecimalValue(ScanDecimal(s).value)
  }

  // ---------------------------------------------------------------------------------------------

  /** Written with numeral characters only. */
  predicate NumeralString(s: string) {
    forall i :: 0 <= i < |s| ==> IsNumeralChar(s[i])
  }

  /** A numeric token is non-empty and written with sign, digit, point and exponent characters
      only, so it holds no list separator. */
  lemma NumericTokenShape(s: string)
    requires IsNumericToken(s)
    ensures s != [] && FreeOf(s, IsSeparator)
  {
    NumericTokenChars(s);
    NumeralsAreNotSeparators(s);
  }

  lemma NumericTokenChars(s: string)
    requires ScanDecimal(s).Some?
    ensures s != [] && NumeralString(s)
  {
    var signLen := SignLength(s);
    UnsignedBody(s);
    UnsignedChars(s[signLen..]);
    SignChars(s);
    NumeralConcat(s[..signLen], s[signLen..]);
    assert s == s[..signLen] + s[signLen..];
  }

  lemma UnsignedBody(s: string)
    requires ScanDecimal(s).Some?
    ensures ScanUnsigned(s[SignLength(s)..]).Some?
  {
  }

  lemma SignChars(s: string)
    ensures NumeralString(s[..SignLength(s)])
  {
  }

  lemma UnsignedChars(body: string)
    requires ScanUnsigned(body).Some?
    ensures body != [] && NumeralString(body)
  {
    var intLen := DigitRun(body);
    FractionChars(body[..intLen], body[intLen..]);
    NumeralConcat(body[..intLen], body[intLen..]);
    assert body == body[..intLen] + body[intLen..];
  }

  lemma NumeralConcat(a: string, b: string)
    requires NumeralString(a) && NumeralString(b)
    ensures NumeralString(a + b)
  {
  }

  lemma NumeralsAreNotSeparators(s: string)
    requires s != [] && NumeralString(s)
    ensures FreeOf(s, IsSeparator)
  {
  }

  lemma FractionChars(intDigits: string, afterInt: string)
    requires AllDigits(intDigits)
    requires ScanFraction(intDigits, afterInt).Some?
    ensures intDigits != [] || afterInt != []
    ensures NumeralString(intDigits) && NumeralString(afterInt)
  {
    if afterInt != [] && afterInt[0] == '.' {
      PointChars(intDigits, afterInt);
    } else {
      ExponentChars(afterInt);
    }
  }

  /** A point, a run of fraction digits and an exponent part. */
  lemma PointChars(intDigits: string, afterInt: string)
    requires AllDigits(intDigits) && afterInt != [] && afterInt[0] == '.'
    requires ScanFraction(intDigits, afterInt).Some?
    ensures NumeralString(afterInt)
  {
    var tail := afterInt[1..];
    var fracLen := DigitRun(tail);
    ExponentChars(tail[fracLen..]);
    NumeralConcat(tail[..fracLen], tail[fracLen..]);
    assert tail == tail[..fracLen] + tail[fracLen..];
    NumeralConcat(afterInt[..1], tail);
    assert afterInt == afterInt[..1] + tail;
  }

  /** An exponent part is written with numeral characters only. */
  lemma ExponentChars(s: string)
    requires ScanExponent(s).Some?
    ensures NumeralString(s)
  {
    if s != [] {
      var t := s[1..];
      var ds := t[SignLength(t)..];
      assert ds[..|ds|] == ds;
      assert t == t[..SignLength(t)] + ds;
      assert s == s[..1] + t;
    }
  }

  /** The empty token, which a doubled separator produces, is not numeric. */
  lemma EmptyTokenNotNumeric()
    ensures !IsNumericToken("")
  {
  }

  /** Small integer literals denote themselves. */
  lemma DigitLiterals()
    ensures IsNumericToken("1") && ToNumber("1") == 1.0
    ensures IsNumericToken("2") && ToNumber("2") == 2.0
    ensures IsNumericToken("3") && ToNumber("3") == 3.0
    ensures !IsNumericToken("a")
  {
    SingleDigit("1");
    SingleDigit("2");
    SingleDigit("3");
    LetterLiteral();
  }

  lemma LetterLiteral()
    ensures ScanDecimal("a").None?
  {
    assert DigitRun("a") == 0;
  }

  lemma SingleDigit(s: string)
    requires |s| == 1 && IsDigit(s[0])
    ensures IsNumericToken(s) && ToNumber(s) == DigitValue(s[0])
  {
    SingleDigitScan(s);
    var d := Decimal(false, s, 0, 0);
    assert DecimalValue(d) == DigitValue(s[0]) by {
      assert Natural(s[..0]) == 0;
    }
    NumericOfScan(s, d, DigitValue(s[0]));
  }

  lemma SingleDigitScan(s: string)
    requires |s| == 1 && IsDigit(s[0])
    ensures ScanDecimal(s) == Some(Decimal(false, s, 0, 0))
  {
    assert s[0..] == s;
    assert DigitRun(s[1..]) == 0;
    assert DigitRun(s) == 1;
    assert s[..1] == s && s[1..] == [];
    assert s + [] == s;
  }

  /** A token that scans as a literal of finite value `v` is numeric and denotes `v`. */
  lemma NumericOfScan(s: string, d: Decimal, v: real)
    requires ScanDecimal(s) == Some(d) && AllDigits(d.digits) && DecimalValue(d) == v && Finite(v)
    ensures IsNumericToken(s) && ToNumber(s) == v
  {
  }

  /** "0.25" denotes a quarter: the digits 025, two of them after the point. */
  lemma FractionLiteral()
    ensures IsNumericToken("0.25") && ToNumber("0.25") == 0.25
  {
    QuarterScan();
    QuarterValue();
    NumericOfScan("0.25", Decimal(false, "025", 2, 0), 0.25);
  }

  lemma QuarterValue()
    ensures DecimalValue(Decimal(false, "025", 2, 0)) == 0.25
  {
    assert Natural("025") == 25 by {
      assert "025"[..2] == "02" && "02"[..1] == "0" && "0"[..0] == [];
    }
    assert Pow10(2) == 100 && Scale(-2) == 1.0 / 100.0;
  }

  lemma QuarterScan()
    ensures ScanDecimal("0.25") == Some(Decimal(false, "025", 2, 0))
  {
    var s := "0.25";
    assert SignLength(s) == 0 && s[0..] == s;
    assert DigitRun(s) == 1 by { assert DigitRun(s[1..]) == 0; }
    assert s[..1] == "0" && s[1..] == ".25";
    assert ScanUnsigned(s) == ScanFraction("0", ".25");
    assert DigitRun("25") == 2 by { assert "25"[1..] == "5" && "5"[1..] == []; }
    assert ".25"[1..] == "25" && "25"[..2] == "25" && "25"[2..] == [];
    assert ScanFraction("0", ".25") == ScanRest("0", "25", []);
    assert "0" + "25" == "025";
  }

  /** "0.5" denotes one half. */
  lemma HalfLiteral()
    ensures IsNumericToken("0.5") && ToNumber("0.5") == 0.5
  {
    HalfScan();
    HalfValue();
    NumericOfScan("0.5", Decimal(false, "05", 1, 0), 0.5);
  }

  lemma HalfValue()
    ensures DecimalValue(Decimal(false, "05", 1, 0)) == 0.5
  {
    assert Natural("05") == 5 by {
      assert "05"[..1] == "0" && "0"[..0] == [];
    }
    assert Pow10(1) == 10 && Scale(-1) == 1.0 / 10.0;
  }

  lemma HalfScan()
    ensures ScanDecimal("0.5") == Some(Decimal(false, "05", 1, 0))
  {
    var s := "0.5";
    assert SignLength(s) == 0 && s[0..] == s;
    assert DigitRun(s) == 1 by { assert DigitRun(s[1..]) == 0; }
    assert s[..1] == "0" && s[1..] == ".5";
    assert ScanUnsigned(s) == ScanFraction("0", ".5");
    assert DigitRun("5") == 1 by { assert "5"[1..] == []; }
    assert ".5"[1..] == "5" && "5"[..1] == "5" && "5"[1..] == [];
    assert ScanFraction("0", ".5") == ScanRest("0", "5", []);
    assert "0" + "5" == "05";
  }

  /** "-1.5e2" denotes -150: a sign, a point and an exponent. */
  lemma ExponentLiteral()
    ensures IsNumericToken("-1.5e2") && ToNumber("-1.5e2") == -150.0
  {
    NegativeExponentScan();
    NegativeExponentValue();
    NumericOfScan("-1.5e2", Decimal(true, "15", 1, 2), -150.0);
  }

  lemma NegativeExponentValue()
    ensures DecimalValue(Decimal(true, "15", 1, 2)) == -150.0
  {
    assert Natural("15") == 15 by {
      assert "15"[..1] == "1" && "1"[..0] == [];
    }
    assert Pow10(1) == 10 && Scale(1) == 10.0;
  }

  lemma NegativeExponentScan()
    ensures ScanDecimal("-1.5e2") == Some(Decimal(true, "15", 1, 2))
  {
    var s := "-1.5e2";
    assert SignLength(s) == 1 && s[1..] == "1.5e2";
    var body := "1.5e2";
    assert DigitRun(body) == 1 by { assert body[1..] == ".5e2"; }
    assert body[..1] == "1" && body[1..] == ".5e2";
    assert ScanUnsigned(body) == ScanFraction("1", ".5e2");
    assert ".5e2"[1..] == "5e2";
    assert DigitRun("5e2") == 1 by { assert "5e2"[1..] == "e2"; }
    assert "5e2"[..1] == "5" && "5e2"[1..] == "e2";
    assert ScanFraction("1", ".5e2") == ScanRest("1", "5", "e2");
    assert ScanExponent("e2") == Some(2) by { ExponentTwo(); }
    assert "1" + "5" == "15";
  }

  lemma ExponentTwo()
    ensures ScanExponent("e2") == Some(2)
  {
    var t := "e2"[1..];
    assert t == "2" && SignLength(t) == 0 && t[0..] == t;
    assert DigitRun(t) == 1 by { assert t[1..] == []; }
    assert Natural(t) == 2 by { assert t[..0] == []; }
  }

  /** A point without digits is not a number. */
  lemma LonePointLiteral()
    ensures !IsNumericToken(".")
  {
    var s := ".";
    assert SignLength(s) == 0 && s[0..] == s && DigitRun(s) == 0;
    assert s[..0] == [] && s[0..] == ".";
    assert ScanUnsigned(s) == ScanFraction([], ".");
    assert "."[1..] == [] && DigitRun([]) == 0;
  }

  /** An exponent without digits is not a number. */
  lemma BareExponentLiteral()
    ensures !IsNumericToken("1e")
  {
    var s := "1e";
    assert SignLength(s) == 0 && s[0..] == s;
    assert DigitRun(s) == 1 by { assert s[1..] == "e"; }
    assert s[..1] == "1" && s[1..] == "e";
    assert ScanUnsigned(s) == ScanFraction("1", "e");
    assert ScanExponent("e").None? by { assert "e"[1..] == []; }
  }

  /** A second point is not a number. */
  lemma TwoPointsLiteral()
    ensures !IsNumericToken("1.2.3")
  {
    var s := "1.2.3";
    assert SignLength(s) == 0 && s[0..] == s;
    assert DigitRun(s) == 1 by { assert s[1..] == ".2.3"; }
    assert s[..1] == "1" && s[1..] == ".2.3";
    assert ScanUnsigned(s) == ScanFraction("1", ".2.3");
    assert ".2.3"[1..] == "2.3";
    assert DigitRun("2.3") == 1 by { assert "2.3"[1..] == ".3"; }
    assert "2.3"[..1] == "2" && "2.3"[1..] == ".3";
    assert ScanFraction("1", ".2.3") == ScanRest("1", "2", ".3");
    assert ScanExponent(".3").None?;
  }

  /** "1e400" is a literal, but its value overflows to an infinity, so it is not numeric. */
  lemma OverflowLiteral()
    ensures ScanDecimal("1e400").Some? && !IsNumericToken("1e400")
  {
    var s := "1e400";
    assert SignLength(s) == 0 && s[0..] == s;
    assert DigitRun(s) == 1 by { assert s[1..] == "e400"; }
    assert s[..1] == "1" && s[1..] == "e400";
    assert ScanUnsigned(s) == ScanFraction("1", "e400");
    assert ScanFraction("1", "e400") == ScanRest("1", [], "e400");
    assert ScanExponent("e400") == Some(400) by { ExponentFourHundred(); }
    assert "1" + [] == "1";
    assert ScanDecimal(s) == Some(Decimal(false, "1", 0, 400));
    assert Natural("1") == 1 by { assert "1"[..0] == []; }
    Pow10Exceeds();
  }

  lemma ExponentFourHundred()
    ensures ScanExponent("e400") == Some(400)
  {
    var t := "e400"[1..];
    assert t == "400" && SignLength(t) == 0 && t[0..] == t;
    assert DigitRun(t) == 3 by {
      assert t[1..] == "00" && "00"[1..] == "0" && "0"[1..] == [];
    }
    assert t[..3] == t;
    assert Natural(t) == 400 by {
      assert t[..2] == "40" && "40"[..1] == "4" && "4"[..0] == [];
    }
  }

  /** `10^400` is beyond the largest finite double. */
  lemma Pow10Exceeds()
    ensures Pow10(400) as real >= Overflow
  {
    Pow10Of400();
  }

  lemma Pow10Of16()
    ensures Pow10(16) == 10000000000000000
  {
    assert Pow10(8) == 100000000 by {
      assert Pow10(4) == 10000 by { assert Pow10(2) == 100; }
      Pow10Sum(4, 4);
    }
    Pow10Sum(8, 8);
  }

  lemma Pow10Of32()
    ensures Pow10(32) == 100000000000000000000000000000000
  {
    Pow10Of16();
    Pow10Sum(16, 16);
  }

  lemma Pow10Of64()
    ensures Pow10(64) == 10000000000000000000000000000000000000000000000000000000000000000
  {
    Pow10Of32();
    Pow10Sum(32, 32);
  }

  lemma Pow10Of128()
    ensures Pow10(128) == 100000000000000000000000000000000000000000000000000000000000000000000000000000000000000000000000000000000000000000000000000000000
  {
    Pow10Of64();
    Pow10Sum(64, 64);
  }

  lemma Pow10Of144()
    ensures Pow10(144) == 1000000000000000000000000000000000000000000000000000000000000000000000000000000000000000000000000000000000000000000000000000000000000000000000000
  {
    Pow10Of128();
    Pow10Of16();
    Pow10Sum(128, 16);
  }

  lemma Pow10Of256()
    ensures Pow10(256) == 10000000000000000000000000000000000000000000000000000000000000000000000000000000000000000000000000000000000000000000000000000000000000000000000000000000000000000000000000000000000000000000000000000000000000000000000000000000000000000000000000000000000000000
  {
    Pow10Of128();
    Pow10Sum(128, 128);
  }

  lemma Pow10Of400()
    ensures Pow10(400) == 10000000000000000000000000000000000000000000000000000000000000000000000000000000000000000000000000000000000000000000000000000000000000000000000000000000000000000000000000000000000000000000000000000000000000000000000000000000000000000000000000000000000000000000000000000000000000000000000000000000000000000000000000000000000000000000000000000000000000000000000000000000000000000000000000000000000000000
  {
    Pow10Of256();
    Pow10Of144();
    Pow10Sum(256, 144);
  }

  lemma {:induction false} Pow10Sum(a: nat, b: nat)
    ensures Pow10(a + b) == Pow10(a) * Pow10(b)
  {
    if a > 0 {
      Pow10Sum(a - 1, b);
      assert Pow10(a + b) == 10 * Pow10(a - 1 + b);
    }
  }
}
