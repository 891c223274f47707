/** The rating arithmetic of the aggregation: `parseInt` without a radix on the rating
    strings, and a running total in which one not-a-number poisons the sum. */
module Ratings {
  import opened Wrappers

  predicate IsDigit(ch: char) {
    '0' <= ch <= '9'
  }

  predicate AllDigits(s: string) {
    forall i :: 0 <= i < |s| ==> IsDigit(s[i])
  }

  function DigitValue(ch: char): (d: nat)
    requires IsDigit(ch)
    ensures d < 10
  {
    ch as int - '0' as int
  }

  function DigitChar(d: nat): (ch: char)
    requires d < 10
    ensures IsDigit(ch) && DigitValue(ch) == d
  {
    ('0' as int + d) as char
  }

  /** Length of the longest prefix of decimal digits. */
  function DigitRunLength(s: string): (n: nat)
    ensures n <= |s|
    ensures AllDigits(s[..n])
    ensures n < |s| ==> !IsDigit(s[n])
  {
    if |s| == 0 || !IsDigit(s[0]) then 0
    else
      var m := DigitRunLength(s[1..]);
      assert s[..1 + m] == [s[0]] + s[1..][..m];
      1 + m
  }

  /** The number a string of decimal digits denotes, read most significant digit first. */
  function DecimalValue(ds: string): nat
    requires AllDigits(ds)
  {
    if |ds| == 0 then 0
    else DecimalValue(ds[..|ds| - 1]) * 10 + DigitValue(ds[|ds| - 1])
  }

  /** `parseInt(s)` on the strings the model covers: the value of the leading run of decimal
      digits, or not-a-number (None) when the string does not start with a digit. */
  function ParseRating(s: string): (r: Option<int>)
    ensures r.None? <==> |s| == 0 || !IsDigit(s[0])
    ensures r.Some? ==> r.value >= 0
  {
    var n := DigitRunLength(s);
    if n == 0 then None else Some(DecimalValue(s[..n]))
  }

  /** The canonical decimal spelling of a natural number. */
  function Decimal(n: nat): (s: string)
    ensures |s| >= 1 && AllDigits(s)
  {
    if n < 10 then [DigitChar(n)] else Decimal(n / 10) + [DigitChar(n % 10)]
  }

  lemma {:induction false} DecimalValueOfDecimal(n: nat)
    ensures DecimalValue(Decimal(n)) == n
  {
    if n >= 10 {
      DecimalValueOfDecimal(n / 10);
      var s := Decimal(n);
      assert s[..|s| - 1] == Decimal(n / 10);
    }
  }

  /** The digit run ends exactly where the first non-digit (or the end) is. */
  lemma DigitRunLengthAt(s: string, k: nat)
    requires k <= |s| && AllDigits(s[..k])
    requires k < |s| ==> !IsDigit(s[k])
    ensures DigitRunLength(s) == k
  {
  }

  /** Parsing stops at the first character that is not a digit: "12abc" reads as 12. */
  lemma ParseStopsAtNonDigit(ds: string, rest: string)
    requires |ds| >= 1 && AllDigits(ds)
    requires |rest| == 0 || !IsDigit(rest[0])
    ensures ParseRating(ds + rest) == Some(DecimalValue(ds))
  {
    var s := ds + rest;
    assert s[..|ds|] == ds;
    DigitRunLengthAt(s, |ds|);
  }

  /** Round trip: the decimal spelling of n parses back to n. */
  lemma ParseDecimal(n: nat)
    ensures ParseRating(Decimal(n)) == Some(n)
  {
    DecimalValueOfDecimal(n);
    ParseStopsAtNonDigit(Decimal(n), "");
    assert Decimal(n) + "" == Decimal(n);
  }

  /** The values the rating control can submit: blank is not-a-number, "1".."5" read as 1..5. */
  lemma FormRatingValues()
    ensures ParseRating("") == None
    ensures ParseRating("1") == Some(1) && ParseRating("2") == Some(2) && ParseRating("3") == Some(3)
    ensures ParseRating("4") == Some(4) && ParseRating("5") == Some(5)
  {
    ParseDecimal(1); ParseDecimal(2); ParseDecimal(3); ParseDecimal(4); ParseDecimal(5);
  }

  /** A bucket's running `totalRating`: a number, or NaN once any addend was not a number. */
  datatype Total = Num(value: int) | NaN

  /** `total += parseInt(rating)`: adding NaN, or adding to NaN, gives NaN. */
  function Plus(t: Total, x: Option<int>): (r: Total)
    ensures r.NaN? <==> t.NaN? || x.None?
    ensures r.Num? ==> r.value == t.value + x.value
  {
    if t.NaN? || x.None? then NaN else Num(t.value + x.value)
  }
}
