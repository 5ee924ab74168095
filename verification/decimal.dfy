/**
 Decimal scaling helper of the token test suite: `toBN(n, unit)` writes `n` in
 decimal, appends `unit` zeros and parses the string back as a big number
 (`strToBN`). Strings are sequences of characters; the big number is a `nat`.
 */
module Decimal {
  import opened Results

  /** `"0".repeat(k)` with a negative count raises a RangeError. */
  datatype RangeError = InvalidCount

  function Pow10(k: nat): (r: nat)
    ensures r >= 1
  {
    if k == 0 then 1 else 10 * Pow10(k - 1)
  }

  predicate IsDigit(c: char) {
    '0' <= c <= '9'
  }

  predicate IsDigits(s: string) {
    forall i :: 0 <= i < |s| ==> IsDigit(s[i])
  }

  /** A decimal numeral as printed for a non-negative integer: no sign, no leading zero. */
  predicate IsCanonical(s: string) {
    && |s| >= 1
    && IsDigits(s)
    && (|s| > 1 ==> s[0] != '0')
  }

  function DigitChar(d: nat): (c: char)
    requires d < 10
    ensures IsDigit(c)
  {
    ('0' as int + d) as char
  }

  function DigitValue(c: char): (d: nat)
    requires IsDigit(c)
    ensures d < 10
    ensures DigitChar(d) == c
  {
    c as int - '0' as int
  }

  /** `"0".repeat(k)` for a non-negative count. */
  function Zeros(k: nat): (z: string)
    ensures |z| == k
    ensures forall i :: 0 <= i < k ==> z[i] == '0'
  {
    if k == 0 then "" else Zeros(k - 1) + "0"
  }

  /** `n.toString()` for a non-negative integer `n`. */
  function ToDecimalString(n: nat): (s: string)
    ensures IsCanonical(s)
    ensures s[0] == '0' ==> n == 0
    ensures n < Pow10(|s|)
    ensures |s| > 1 ==> Pow10(|s| - 1) <= n
  {
    if n < 10 then [DigitChar(n)] else ToDecimalString(n / 10) + [DigitChar(n % 10)]
  }

  /** `strToBN(s)`: the value of a string of decimal digits. */
  function ParseDecimal(s: string): (n: nat)
    requires IsDigits(s)
    ensures n < Pow10(|s|)
  {
    if s == [] then 0 else ParseDecimal(s[..|s| - 1]) * 10 + DigitValue(s[|s| - 1])
  }

  /** `toBN(n, unit)`: zero ignores the unit; otherwise `unit` zeros are appended. */
  function ToBN(n: nat, unit: int := 0): (r: Result<nat, RangeError>)
    ensures r.Err? <==> n != 0 && unit < 0
  {
    var count := if n == 0 then 0 else unit;
    if count < 0 then Err(InvalidCount)
    else Ok(ParseDecimal(ToDecimalString(n) + Zeros(count)))
  }

  lemma ParseAppendDigit(s: string, c: char)
    requires IsDigits(s) && IsDigit(c)
    ensures IsDigits(s + [c])
    ensures ParseDecimal(s + [c]) == ParseDecimal(s) * 10 + DigitValue(c)
  {
    assert (s + [c])[..|s|] == s;
  }

  /** Printing then parsing gives the number back. */
  lemma {:induction false} ParsePrinted(n: nat)
    ensures ParseDecimal(ToDecimalString(n)) == n
  {
    if n >= 10 {
      ParsePrinted(n / 10);
      ParseAppendDigit(ToDecimalString(n / 10), DigitChar(n % 10));
    }
  }

  /** A numeral with a non-zero leading digit is at least the power of ten its length calls for. */
  lemma {:induction false} ParseLeadingDigit(s: string)
    requires IsDigits(s) && |s| >= 1 && s[0] != '0'
    ensures Pow10(|s| - 1) <= ParseDecimal(s)
    decreases |s|
  {
    if |s| > 1 {
      var p := s[..|s| - 1];
      assert p[0] == s[0];
      ParseLeadingDigit(p);
    }
  }

  /** Parsing then printing gives a canonical numeral back. */
  lemma {:induction false} PrintParsed(s: string)
    requires IsCanonical(s)
    ensures ToDecimalString(ParseDecimal(s)) == s
    decreases |s|
  {
    var p := s[..|s| - 1];
    var c := s[|s| - 1];
    assert s == p + [c];
    var n := ParseDecimal(s);
    if |s| > 1 {
      assert p[0] == s[0];
      ParseLeadingDigit(p);
      assert n / 10 == ParseDecimal(p) && n % 10 == DigitValue(c);
      PrintParsed(p);
    }
  }

  /** Regrouping a product, kept apart so that the inductive step below stays linear for the solver. */
  lemma ScaleByTen(a: nat, p: nat)
    ensures a * p * 10 == a * (10 * p)
  {
  }

  /** Appending `k` zeros multiplies the parsed value by ten to the `k`. */
  lemma {:induction false} ParseAppendZeros(s: string, k: nat)
    requires IsDigits(s)
    ensures IsDigits(s + Zeros(k))
    ensures ParseDecimal(s + Zeros(k)) == ParseDecimal(s) * Pow10(k)
  {
    if k == 0 {
      assert s + Zeros(0) == s;
    } else {
      ParseAppendZeros(s, k - 1);
      var prefix := s + Zeros(k - 1);
      assert s + Zeros(k) == prefix + ['0'];
      ParseAppendDigit(prefix, '0');
      ScaleByTen(ParseDecimal(s), Pow10(k - 1));
    }
  }

  /** `toBN(n, unit)` is `n * 10^unit`; zero stays zero for every unit, even a negative one. */
  lemma ToBNScales(n: nat, unit: int)
    ensures n == 0 ==> ToBN(n, unit) == Ok(0)
    ensures n != 0 && unit >= 0 ==> ToBN(n, unit) == Ok(n * Pow10(unit))
  {
    var count := if n == 0 then 0 else unit;
    if count >= 0 {
      ParseAppendZeros(ToDecimalString(n), count);
      ParsePrinted(n);
    }
  }

  /** The unit defaults to zero, which leaves a number as it is: the constants one, two and zero. */
  lemma ToBNDefaultUnit(n: nat)
    ensures ToBN(n) == Ok(n)
    ensures ToBN(1) == Ok(1) && ToBN(2) == Ok(2) && ToBN(0) == Ok(0)
  {
    ToBNScales(n, 0);
    ToBNScales(1, 0);
    ToBNScales(2, 0);
    ToBNScales(0, 0);
  }

  /** The worked examples of the helper's documentation and its unit test. */
  lemma ToBNExamples()
    ensures ToBN(99, 1) == Ok(990)
    ensures ToBN(99, 0) == Ok(99)
    ensures ToBN(0, 0) == Ok(0)
    ensures ToBN(0, 1) == Ok(0)
    ensures ToBN(99, 18) == Ok(99000000000000000000)
    ensures ToBN(99, -1).Err?
  {
    ToBNScales(99, 1);
    ToBNScales(99, 0);
    ToBNScales(0, 0);
    ToBNScales(0, 1);
    ToBNScales(99, 18);
    assert Pow10(6) == 1000000;
    assert Pow10(12) == 1000000000000;
    assert Pow10(18) == 1000000000000000000;
  }
}
