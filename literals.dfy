/** What `Double.parseDouble` reads: the literal forms the SDK meets when a
    string argument or a default value is bound to a `double` or `float`
    parameter, and the text `Double.toString` writes for an integral value. */
module Literals {
  import opened Wrappers
  import opened Text
  import opened Values

  // ------------------------------------------- where the parts of a literal sit

  /** `w` stands in `t` from index `i` on. */
  predicate At(t: string, i: nat, w: string)
  {
    i + |w| <= |t| && t[i..i + |w|] == w
  }

  /** Each part of a concatenation stands where the parts before it end. */
  lemma PartAt(t: string, p: string, w: string, rest: string)
    requires t == p + w + rest
    ensures |t| == |p| + |w| + |rest| && At(t, |p|, w)
  {
  }

  /** The first character of a part, and the part after it. */
  lemma HeadAt(t: string, i: nat, c: char, x: string)
    requires At(t, i, [c] + x)
    ensures t[i] == c && At(t, i + 1, x)
  {
    assert t[i] == t[i..i + 1 + |x|][0];
    assert t[i + 1..i + 1 + |x|] == t[i..i + 1 + |x|][1..];
  }

  /** The first and last characters of a part that is not empty. */
  lemma EndsOf(t: string, i: nat, w: string)
    requires At(t, i, w) && w != []
    ensures t[i] == w[0] && t[i + |w| - 1] == w[|w| - 1]
  {
    assert t[i] == t[i..i + |w|][0];
    assert t[i + |w| - 1] == t[i..i + |w|][|w| - 1];
  }

  /** A sign, digits, a point, digits, then `rest`. */
  lemma PointedLayout(t: string, sign: string, w: string, f: string, rest: string)
    requires t == sign + w + "." + f + rest
    ensures |t| == |sign| + |w| + 1 + |f| + |rest|
    ensures At(t, 0, sign) && At(t, |sign|, w) && t[|sign| + |w|] == '.'
    ensures At(t, |sign| + |w| + 1, f) && At(t, |sign| + |w| + 1 + |f|, rest)
  {
    PartAt(t, [], sign, w + "." + f + rest);
    PartAt(t, sign, w, "." + f + rest);
    PartAt(t, sign + w, ".", f + rest);
    PartAt(t, sign + w + ".", f, rest);
    PartAt(t, sign + w + "." + f, rest, []);
  }

  // -------------------------------------------------------- reading the parts

  /** The digit run at `i` is exactly the digits `w` standing there. */
  lemma RunOf(t: string, i: nat, w: string)
    requires At(t, i, w) && AllDigits(w)
    requires i + |w| == |t| || !IsDigit(t[i + |w|])
    ensures DigitRun(t, i) == |w|
  {
    assert forall k | i <= k < i + |w| :: t[k] == w[k - i];
    DigitRunExact(t, i, |w|);
  }

  /** An optional minus sign, then a digit. */
  lemma SignOf(t: string, sign: string)
    requires sign == "" || sign == "-"
    requires At(t, 0, sign) && |sign| < |t| && IsDigit(t[|sign|])
    ensures SignLength(t) == |sign| && t[0] > ' '
    ensures (0 < |t| && t[0] == '-') == (sign == "-")
  {
    if sign == "-" {
      assert t[0] == t[0..1][0];
    }
  }

  /** Digits without a point. */
  lemma WholeMantissa(t: string, i: nat, w: string)
    requires w != [] && AllDigits(w) && At(t, i, w)
    requires i + |w| == |t| || (!IsDigit(t[i + |w|]) && t[i + |w|] != '.')
    ensures ScanMantissa(t, i) == Some(Mantissa(w, 0, i + |w|))
  {
    RunOf(t, i, w);
  }

  /** Two digit runs around a point make a mantissa with a fraction. */
  lemma MantissaOfRuns(t: string, i: nat, w: string, f: string)
    requires 0 < |w| + |f| && At(t, i, w) && i + |w| < |t| && t[i + |w|] == '.' && At(t, i + |w| + 1, f)
    requires DigitRun(t, i) == |w| && DigitRun(t, i + |w| + 1) == |f|
    ensures ScanMantissa(t, i) == Some(Mantissa(w + f, |f|, i + |w| + 1 + |f|))
  {
  }

  /** Digits, a point, digits. */
  lemma PointedMantissa(t: string, i: nat, w: string, f: string)
    requires AllDigits(w) && AllDigits(f) && 0 < |w| + |f|
    requires At(t, i, w) && i + |w| < |t| && t[i + |w|] == '.' && At(t, i + |w| + 1, f)
    requires i + |w| + 1 + |f| == |t| || !IsDigit(t[i + |w| + 1 + |f|])
    ensures ScanMantissa(t, i) == Some(Mantissa(w + f, |f|, i + |w| + 1 + |f|))
  {
    RunOf(t, i, w);
    RunOf(t, i + |w| + 1, f);
    MantissaOfRuns(t, i, w, f);
  }

  /** An exponent letter and unsigned digits `x` that end the literal. */
  lemma DigitsExponent(t: string, j: nat, x: string)
    requires j < |t| && (t[j] == 'e' || t[j] == 'E') && x != [] && AllDigits(x)
    requires At(t, j + 1, x) && j + 1 + |x| == |t|
    ensures ScanExponent(t, j) == Some(Exponent(false, x, |t|))
  {
    EndsOf(t, j + 1, x);
    RunOf(t, j + 1, x);
  }

  /** The literal read from its mantissa and exponent. */
  lemma ScanDecimalOf(t: string, negative: bool, digits: string, fraction: nat, end: nat, x: Exponent, e: int)
    requires (0 < |t| && t[0] == '-') == negative
    requires end <= |t| && ScanMantissa(t, SignLength(t)) == Some(Mantissa(digits, fraction, end))
    requires ScanExponent(t, end) == Some(x) && EndsAt(t, x.end) && AllDigits(x.digits) && ExponentValue(x) == e
    ensures ScanDecimal(t) == Some(Decimal(negative, digits, e - fraction))
  {
  }

  /** A literal that scans, and whose first and last characters are not
      blank, reads as the decimal it scans as. */
  lemma ReadScanned(t: string, d: Decimal)
    requires t != [] && t[0] > ' ' && t[|t| - 1] > ' '
    requires ScanDecimal(t) == Some(d)
    ensures AllDigits(d.digits) && ParseDouble(t) == ReadDecimal(t, d)
  {
    TrimUnchanged(t);
  }

  /** A decimal whose scaled digits are an integer reads as that integer. */
  lemma ReadValue(t: string, d: Decimal, v: nat)
    requires AllDigits(d.digits) && Scale(DigitsValue(d.digits), d.exponent) == Some(v)
    ensures ReadDecimal(t, d) == Ok(if d.negative then -(v as int) else v)
  {
  }

  /** One whose scaled digits are not an integer is refused, naming the literal. */
  lemma ReadRefused(t: string, d: Decimal)
    requires AllDigits(d.digits) && Scale(DigitsValue(d.digits), d.exponent).None?
    ensures ReadDecimal(t, d) == Err(ForInputString(t))
  {
  }

  /** A literal outside the grammar is refused, naming the literal. */
  lemma Unscanned(t: string)
    requires t != [] && t[0] > ' ' && t[|t| - 1] > ' ' && ScanDecimal(t).None?
    ensures ParseDouble(t) == Err(ForInputString(t))
  {
    TrimUnchanged(t);
  }

  // ---------------------------------------------- the forms, wherever they sit

  /** Digits and an exponent. */
  lemma ExponentForm(t: string, w: string, x: string)
    requires w != [] && AllDigits(w) && x != [] && AllDigits(x)
    requires At(t, 0, w) && |t| == |w| + 1 + |x| && (t[|w|] == 'e' || t[|w|] == 'E') && At(t, |w| + 1, x)
    ensures ParseDouble(t) == Ok(DigitsValue(w) * Pow10(DigitsValue(x)))
  {
    SignOf(t, "");
    WholeMantissa(t, 0, w);
    DigitsExponent(t, |w|, x);
    ScanDecimalOf(t, false, w, 0, |w|, Exponent(false, x, |t|), DigitsValue(x));
    ReadScanned(t, Decimal(false, w, DigitsValue(x)));
    ScaleUp(DigitsValue(w), DigitsValue(x));
    ReadValue(t, Decimal(false, w, DigitsValue(x)), Scale(DigitsValue(w), DigitsValue(x)).value);
  }

  /** Digits and one type suffix. */
  lemma SuffixForm(t: string, w: string)
    requires w != [] && AllDigits(w) && At(t, 0, w) && |t| == |w| + 1 && t[|w|] in "fFdD"
    ensures ParseDouble(t) == Ok(DigitsValue(w))
  {
    SignOf(t, "");
    WholeMantissa(t, 0, w);
    assert ScanExponent(t, |w|) == Some(Exponent(false, "", |w|)) && EndsAt(t, |w|);
    ScanDecimalOf(t, false, w, 0, |w|, Exponent(false, "", |w|), 0);
    ReadScanned(t, Decimal(false, w, 0));
    ReadValue(t, Decimal(false, w, 0), DigitsValue(w));
  }

  /** Digits and an exponent letter with nothing after it. */
  lemma BareExponentForm(t: string, w: string)
    requires w != [] && AllDigits(w) && At(t, 0, w) && |t| == |w| + 1 && (t[|w|] == 'e' || t[|w|] == 'E')
    ensures ParseDouble(t) == Err(ForInputString(t))
  {
    SignOf(t, "");
    WholeMantissa(t, 0, w);
    assert DigitRun(t, |w| + 1) == 0;
    Unscanned(t);
  }

  /** Digits, a type suffix, and one more character. */
  lemma TwoSuffixesForm(t: string, w: string)
    requires w != [] && AllDigits(w) && At(t, 0, w) && |t| == |w| + 2 && t[|w|] in "fFdD" && t[|w| + 1] > ' '
    ensures ParseDouble(t) == Err(ForInputString(t))
  {
    SignOf(t, "");
    WholeMantissa(t, 0, w);
    assert ScanExponent(t, |w|) == Some(Exponent(false, "", |w|)) && !EndsAt(t, |w|);
    Unscanned(t);
  }

  /** A signed mantissa with a point and at least one fraction digit, scanned. */
  lemma PointedScan(t: string, sign: string, w: string, f: string)
    requires sign == "" || sign == "-"
    requires AllDigits(w) && AllDigits(f) && |w| > 0 && |f| > 0
    requires |t| == |sign| + |w| + 1 + |f|
    requires At(t, 0, sign) && At(t, |sign|, w) && t[|sign| + |w|] == '.' && At(t, |sign| + |w| + 1, f)
    ensures AllDigits(w + f)
    ensures ParseDouble(t) == ReadDecimal(t, Decimal(sign == "-", w + f, -|f|))
  {
    EndsOf(t, |sign|, w);
    SignOf(t, sign);
    PointedMantissa(t, |sign|, w, f);
    ScanDecimalOf(t, sign == "-", w + f, |f|, |t|, Exponent(false, "", |t|), 0);
    EndsOf(t, |sign| + |w| + 1, f);
    ReadScanned(t, Decimal(sign == "-", w + f, -|f|));
  }

  // ----------------------------------------------------- what is read, and how

  /** Every literal `Long.parseLong` reads (after trimming) is read by
      `Double.parseDouble` as the same integer. */
  lemma ParseDoubleReadsIntegers(s: string)
    requires ParseIntegral(Trim(s)).Some?
    ensures ParseDouble(s) == Ok(ParseIntegral(Trim(s)).value)
  {
    var t := Trim(s);
    var i := SignLength(t);
    if |t| > 1 && (t[0] == '-' || t[0] == '+') && AllDigits(t[1..]) {
      assert forall k | 1 <= k < |t| :: t[k] == t[1..][k - 1];
      assert i == 1;
    } else {
      assert i == 0;
    }
    WholeMantissa(t, i, t[i..]);
    assert ScanExponent(t, |t|) == Some(Exponent(false, "", |t|));
    ScanDecimalOf(t, 0 < |t| && t[0] == '-', t[i..], 0, |t|, Exponent(false, "", |t|), 0);
    assert Scale(DigitsValue(t[i..]), 0) == Some(DigitsValue(t[i..]));
  }

  /** Digits followed by an exponent denote the digits' value times that
      power of ten. */
  lemma ParseDoubleExponent(w: string, letter: char, x: string)
    requires w != [] && AllDigits(w) && x != [] && AllDigits(x) && (letter == 'e' || letter == 'E')
    ensures ParseDouble(w + [letter] + x) == Ok(DigitsValue(w) * Pow10(DigitsValue(x)))
  {
    var t := w + [letter] + x;
    PartAt(t, [], w, [letter] + x);
    PartAt(t, w, [letter] + x, []);
    HeadAt(t, |w|, letter, x);
    ExponentForm(t, w, x);
  }

  /** One type suffix after digits leaves their value. */
  lemma ParseDoubleSuffix(w: string, suffix: char)
    requires w != [] && AllDigits(w) && suffix in "fFdD"
    ensures ParseDouble(w + [suffix]) == Ok(DigitsValue(w))
  {
    var t := w + [suffix];
    PartAt(t, [], w, [suffix]);
    SuffixForm(t, w);
  }

  /** An exponent letter with no digits after it is refused. */
  lemma ParseDoubleBareExponent(w: string, letter: char)
    requires w != [] && AllDigits(w) && (letter == 'e' || letter == 'E')
    ensures ParseDouble(w + [letter]) == Err(ForInputString(w + [letter]))
  {
    var t := w + [letter];
    PartAt(t, [], w, [letter]);
    BareExponentForm(t, w);
  }

  /** A second type suffix is refused. */
  lemma ParseDoubleTwoSuffixes(w: string, first: char, second: char)
    requires w != [] && AllDigits(w) && first in "fFdD" && second in "fFdD"
    ensures ParseDouble(w + [first, second]) == Err(ForInputString(w + [first, second]))
  {
    var t := w + [first, second];
    PartAt(t, [], w, [first, second]);
    TwoSuffixesForm(t, w);
  }

  /** A literal with a point and no exponent whose fraction digits are
      all zero denotes its whole part. */
  lemma ParseDoublePointed(sign: string, w: string, f: string, v: nat)
    requires sign == "" || sign == "-"
    requires AllDigits(w) && AllDigits(f) && |w| > 0 && |f| > 0
    requires AllDigits(w + f) && Scale(DigitsValue(w + f), -|f|) == Some(v)
    ensures ParseDouble(sign + w + "." + f) == Ok(if sign == "-" then -(v as int) else v)
  {
    var t := sign + w + "." + f;
    assert t == sign + w + "." + f + [];
    PointedLayout(t, sign, w, f, []);
    PointedScan(t, sign, w, f);
    ReadValue(t, Decimal(sign == "-", w + f, -|f|), v);
  }

  /** One whose fraction digits are not all zero is refused. */
  lemma ParseDoubleFractional(sign: string, w: string, f: string)
    requires sign == "" || sign == "-"
    requires AllDigits(w) && AllDigits(f) && |w| > 0 && |f| > 0
    requires AllDigits(w + f) && Scale(DigitsValue(w + f), -|f|).None?
    ensures ParseDouble(sign + w + "." + f) == Err(ForInputString(sign + w + "." + f))
  {
    var t := sign + w + "." + f;
    assert t == sign + w + "." + f + [];
    PointedLayout(t, sign, w, f, []);
    PointedScan(t, sign, w, f);
    ReadRefused(t, Decimal(sign == "-", w + f, -|f|));
  }

  // ---------------------------------------------------------- the round trip

  /** A trailing zero cancels a negative power. */
  lemma ScaleShift(m: nat)
    ensures Scale(m * 10, -1) == Some(m)
  {
    assert Pow10(1) == 10;
  }

  /** The digits of `n` and a zero fraction, as plain notation writes them,
      are worth `n`. */
  lemma PlainValue(n: nat)
    ensures AllDigits(NatToString(n) + "0")
    ensures Scale(DigitsValue(NatToString(n) + "0"), -1) == Some(n)
  {
    DigitsOfNat(n);
    DigitsValueAppend(NatToString(n), "0");
    ScaleShift(n);
  }

  /** `Double.toString` in plain notation is read back. */
  lemma PlainRoundTrip(n: int)
    requires -10_000_000 < n < 10_000_000
    ensures ParseDouble(DoubleToString(n)) == Ok(n)
  {
    var sign := if n < 0 then "-" else "";
    var abs := if n < 0 then -n else n;
    var d := NatToString(abs);
    var t := DoubleToString(n);
    assert t == sign + d + "." + "0";
    PlainValue(abs);
    ParseDoublePointed(sign, d, "0", abs);
  }
}
