/** The `Total` column cleanup: the currency text is stripped of every character that is not a
    decimal digit or a decimal point, and the rest is converted with `float`. Digits are the ASCII
    digits '0'..'9'. */
module Currency {
  import opened Wrappers
  import opened Sequences

  predicate IsDigit(c: char) { '0' <= c <= '9' }

  /** The characters the substitution keeps: everything outside the class `[^\d.]`. */
  predicate IsKept(c: char) { IsDigit(c) || c == '.' }

  predicate AllKept(s: string) { forall i :: 0 <= i < |s| ==> IsKept(s[i]) }

  predicate NoneKept(s: string) { forall i :: 0 <= i < |s| ==> !IsKept(s[i]) }

  /** `float` refused the cleaned text (Python's ValueError). */
  datatype ConversionError = CouldNotConvert(text: string)

  /** The regular-expression substitution that deletes every character other than a digit or '.'. */
  function CleanTotal(s: string): (r: string)
    ensures forall i :: 0 <= i < |r| ==> IsKept(r[i])
  {
    Filter(IsKept, s)
  }

  /** Every digit and every point of the text is kept, as often as it occurs; nothing else is. */
  lemma CleanTotalCounts(s: string, c: char)
    ensures multiset(CleanTotal(s))[c] == if IsKept(c) then multiset(s)[c] else 0
  {
    FilterCount(IsKept, s, c);
  }

  /** The kept characters stay in their original order. */
  lemma CleanTotalOrder(s: string)
    ensures IsSubsequence(CleanTotal(s), s)
  {
    FilterIsSubsequence(IsKept, s);
  }

  /** Text made only of digits and '.' is returned unchanged, and only such text is. */
  lemma CleanTotalUnchanged(s: string)
    ensures CleanTotal(s) == s <==> AllKept(s)
  {
    FilterUnchanged(IsKept, s);
  }

  /** Cleaning cleaned text changes nothing. */
  lemma CleanTotalIdempotent(s: string)
    ensures CleanTotal(CleanTotal(s)) == CleanTotal(s)
  {
    CleanTotalUnchanged(CleanTotal(s));
  }

  /** The cleanup of a concatenation is the concatenation of the cleanups. */
  lemma CleanTotalAppend(a: string, b: string)
    ensures CleanTotal(a + b) == CleanTotal(a) + CleanTotal(b)
  {
    FilterAppend(IsKept, a, b);
  }

  /** Text the substitution leaves alone is returned as it is. */
  lemma CleanTotalKeeps(s: string)
    requires AllKept(s)
    ensures CleanTotal(s) == s
  {
    CleanTotalUnchanged(s);
  }

  /** A run of kept characters followed by a run of dropped ones: the first survives, the second
      vanishes, and the cleanup carries on with the rest. */
  lemma CleanTotalSkips(a: string, j: string, b: string)
    requires AllKept(a) && NoneKept(j)
    ensures CleanTotal(a + j + b) == a + CleanTotal(b)
  {
    CleanTotalAppend(a + j, b);
    CleanTotalAppend(a, j);
    CleanTotalUnchanged(a);
    FilterEmpty(IsKept, j);
  }

  lemma DollarPieces()
    ensures "$1,234.56" == "" + "$" + ("1" + "," + "234.56") && "1234.56" == "" + ("1" + "234.56")
    ensures AllKept("") && NoneKept("$") && AllKept("1") && NoneKept(",") && AllKept("234.56")
  {
  }

  lemma CleanTotalDollarExample()
    ensures CleanTotal("$1,234.56") == "1234.56"
  {
    DollarPieces();
    CleanTotalKeeps("234.56");
    CleanTotalSkips("1", ",", "234.56");
    CleanTotalSkips("", "$", "1,234.56");
  }

  lemma ThousandsPieces()
    ensures "1,000.00" == "1" + "," + "000.00" && "1000.00" == "1" + "000.00"
    ensures AllKept("1") && NoneKept(",") && AllKept("000.00")
  {
  }

  lemma CleanTotalThousandsExample()
    ensures CleanTotal("1,000.00") == "1000.00"
  {
    ThousandsPieces();
    CleanTotalKeeps("000.00");
    CleanTotalSkips("1", ",", "000.00");
  }

  /** Among strings of digits and '.', those `float` accepts: at most one point and at least one
      digit ("12", "12.", ".5", "1.25"; not "", ".", "1.2.3"). */
  predicate IsDecimal(s: string) {
    multiset(s)['.'] <= 1 && exists i :: 0 <= i < |s| && IsDigit(s[i])
  }

  predicate IsDigits(s: string) {
    forall i :: 0 <= i < |s| ==> IsDigit(s[i])
  }

  function DigitValue(c: char): (d: nat)
    requires IsDigit(c)
  {
    (c as int) - ('0' as int)
  }

  /** The number a string of digits writes in base ten (the empty string writes 0). */
  function DigitsValue(s: string): (n: nat)
    requires IsDigits(s)
  {
    if s == [] then 0 else DigitsValue(s[..|s| - 1]) * 10 + DigitValue(s[|s| - 1])
  }

  function Pow10(n: nat): (r: nat)
    ensures r >= 1
  {
    if n == 0 then 1 else 10 * Pow10(n - 1)
  }

  /** The position of the first decimal point. */
  function FirstDot(s: string): (i: nat)
    requires '.' in s
    ensures i < |s| && s[i] == '.'
    ensures forall k :: 0 <= k < i ==> s[k] != '.'
  {
    if s[0] == '.' then 0 else 1 + FirstDot(s[1..])
  }

  /** Cleaned text without a decimal point is all digits. */
  lemma KeptWithoutDot(s: string)
    requires AllKept(s)
    requires '.' !in s
    ensures IsDigits(s)
  {
  }

  /** `float` applied to cleaned text, with the value kept exact: the digits before the first point
      plus the digits after it scaled down by their count. */
  function ParseDecimal(s: string): (r: Result<real, ConversionError>)
    requires AllKept(s)
    ensures r.Success? ==> r.value >= 0.0
  {
    if '.' !in s then
      KeptWithoutDot(s);
      if s == [] then Failure(CouldNotConvert(s)) else Success(DigitsValue(s) as real)
    else
      var i := FirstDot(s);
      KeptWithoutDot(s[..i]);
      ParsePoint(s, s[..i], s[i + 1..])
  }

  /** The text `s` split at its first point into the digits `whole` before it and the rest `frac`. */
  function ParsePoint(s: string, whole: string, frac: string): (r: Result<real, ConversionError>)
    requires IsDigits(whole) && AllKept(frac)
    ensures r.Success? ==> r.value >= 0.0
  {
    if '.' in frac || (whole == [] && frac == []) then
      Failure(CouldNotConvert(s))
    else
      KeptWithoutDot(frac);
      Success(DecimalValue(whole, frac))
  }

  /** The number written by the digits `whole`, a point and the digits `frac`. */
  function DecimalValue(whole: string, frac: string): (v: real)
    requires IsDigits(whole) && IsDigits(frac)
    ensures v >= 0.0
  {
    DigitsValue(whole) as real + DigitsValue(frac) as real / Pow10(|frac|) as real
  }

  /** `float` accepts cleaned text exactly when it has at most one point and at least one digit. */
  lemma ParseDecimalAccepts(s: string)
    requires AllKept(s)
    ensures ParseDecimal(s).Success? <==> IsDecimal(s)
  {
    if '.' !in s {
      ParseWithoutDot(s);
    } else {
      ParseWithDot(s);
    }
  }

  lemma ParseWithoutDot(s: string)
    requires AllKept(s)
    requires '.' !in s
    ensures ParseDecimal(s).Success? <==> IsDecimal(s)
  {
  }

  lemma ParseWithDot(s: string)
    requires AllKept(s)
    requires '.' in s
    ensures ParseDecimal(s).Success? <==> IsDecimal(s)
  {
    var i := FirstDot(s);
    var whole, frac := s[..i], s[i + 1..];
    assert s == whole + ['.'] + frac;
    KeptWithoutDot(whole);
    assert multiset(s)['.'] == 1 + multiset(frac)['.'];
    if '.' !in frac {
      KeptWithoutDot(frac);
      if whole != [] {
        assert IsDigit(s[0]);
      } else if frac != [] {
        assert s[i + 1] == frac[0];
        assert IsDigit(s[i + 1]);
      } else {
        assert s == ['.'];
      }
    }
  }

  /** The first point of digits, a point and anything is right after the digits. */
  lemma {:induction false} FirstDotAfterDigits(w: string, f: string)
    requires IsDigits(w)
    ensures FirstDot(w + ['.'] + f) == |w|
  {
    var s := w + ['.'] + f;
    if w != [] {
      assert s[0] == w[0];
      assert s[1..] == w[1..] + ['.'] + f;
      FirstDotAfterDigits(w[1..], f);
    }
  }

  /** Digits, a point and digits are cleaned text. */
  lemma AroundDot(w: string, f: string)
    requires IsDigits(w) && IsDigits(f)
    ensures AllKept(w + ['.'] + f)
  {
  }

  lemma ParsePointValue(s: string, w: string, f: string)
    requires IsDigits(w) && IsDigits(f) && w + f != []
    ensures AllKept(f)
    ensures ParsePoint(s, w, f) == Success(DecimalValue(w, f))
  {
  }

  /** The value of digits, a point and digits: the whole part plus the scaled fraction. */
  lemma ParseDecimalValue(w: string, f: string)
    requires IsDigits(w) && IsDigits(f) && w + f != []
    ensures ParseDecimal(w + ['.'] + f) == Success(DecimalValue(w, f))
  {
    var s := w + ['.'] + f;
    AroundDot(w, f);
    FirstDotAfterDigits(w, f);
    assert s[|w|] == '.' && s[|w|] in s;
    assert s[..|w|] == w && s[|w| + 1..] == f;
    ParsePointValue(s, w, f);
  }

  lemma DecimalPieces()
    ensures "1234.56" == "1234" + ['.'] + "56" && "1000.00" == "1000" + ['.'] + "00"
    ensures IsDigits("1234") && IsDigits("56") && IsDigits("1000") && IsDigits("00")
    ensures |"56"| == 2 && |"00"| == 2 && Pow10(2) == 100
  {
  }

  lemma DigitsExamples()
    ensures DigitsValue("1234") == 1234 && DigitsValue("56") == 56
    ensures DigitsValue("1000") == 1000 && DigitsValue("00") == 0
  {
    assert "1234"[..3] == "123" && "123"[..2] == "12" && "12"[..1] == "1" && "1"[..0] == "";
    assert "56"[..1] == "5" && "5"[..0] == "";
    assert "1000"[..3] == "100" && "100"[..2] == "10" && "10"[..1] == "1";
    assert "00"[..1] == "0" && "0"[..0] == "";
  }

  lemma DecimalExamples()
    ensures IsDigits("1234") && IsDigits("56") && IsDigits("1000") && IsDigits("00")
    ensures DecimalValue("1234", "56") == 1234.56 && DecimalValue("1000", "00") == 1000.0
  {
    DecimalPieces();
    DigitsExamples();
  }

  /** Cleaned text of the form digits, point, digits converts to the value those digits write. */
  lemma ConvertsTo(x: string, w: string, f: string, v: real)
    requires CleanTotal(x) == w + ['.'] + f && IsDigits(w) && IsDigits(f) && w + f != []
    requires v == DecimalValue(w, f)
    ensures ParseDecimal(CleanTotal(x)) == Success(v)
  {
    ParseDecimalValue(w, f);
  }

  /** Cleaned text of digits alone converts to the whole number they write. */
  lemma ParseDecimalWholeValue(w: string)
    requires IsDigits(w) && w != []
    ensures ParseDecimal(w) == Success(DigitsValue(w) as real)
  {
    assert AllKept(w);
    assert '.' !in w by {
      forall k | 0 <= k < |w| ensures w[k] != '.' {
        assert IsDigit(w[k]);
      }
    }
  }

  /** "20.0" is already clean and converts to 20.0. */
  lemma ParseDecimalTwentyExample()
    ensures ParseDecimal(CleanTotal("20.0")) == Success(20.0)
  {
    assert "20.0" == "20" + ['.'] + "0";
    assert IsDigits("20") && IsDigits("0") && AllKept("20.0");
    CleanTotalKeeps("20.0");
    assert DigitsValue("20") == 20 && DigitsValue("0") == 0 && Pow10(1) == 10;
    assert DecimalValue("20", "0") == 20.0;
    ConvertsTo("20.0", "20", "0", 20.0);
  }

  /** A minus sign is not kept, so a negative amount cleans to the text of its magnitude. */
  lemma CleanTotalDropsSign(s: string)
    ensures CleanTotal("-" + s) == CleanTotal(s)
  {
  }

  /** Text without a digit or a point cleans to nothing. */
  lemma CleanTotalNothingKept()
    ensures CleanTotal("TBD") == ""
  {
  }

  /** The cleaned text of "$1,234.56" converts to 1234.56. */
  lemma ParseDecimalDollarExample()
    ensures ParseDecimal(CleanTotal("$1,234.56")) == Success(1234.56)
  {
    CleanTotalDollarExample();
    DecimalPieces();
    DecimalExamples();
    ConvertsTo("$1,234.56", "1234", "56", 1234.56);
  }

  /** The cleaned text of "1,000.00" converts to 1000.0. */
  lemma ParseDecimalThousandsExample()
    ensures ParseDecimal(CleanTotal("1,000.00")) == Success(1000.0)
  {
    CleanTotalThousandsExample();
    DecimalPieces();
    DecimalExamples();
    ConvertsTo("1,000.00", "1000", "00", 1000.0);
  }

  lemma ParseDecimalRejects()
    ensures ParseDecimal("").Failure?
    ensures ParseDecimal(".").Failure?
    ensures ParseDecimal("1.2.3").Failure?
  {
  }
}
