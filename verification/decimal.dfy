/**
 Decimal rendering of a Java `long`, as `Long.toString` produces it: an
 optional minus sign followed by the digits of the magnitude, without leading
 zeros. The logger uses it to print elapsed milliseconds. `ParseLong` is the
 inverse used to state what the rendering means.
 */
module Decimal {
  import opened JavaTypes

  predicate IsDigit(c: char)
  {
    '0' <= c <= '9'
  }

  predicate AllDigits(s: string)
  {
    forall i :: 0 <= i < |s| ==> IsDigit(s[i])
  }

  function DigitChar(d: nat): (c: char)
    requires d < 10
    ensures IsDigit(c)
  {
    "0123456789"[d]
  }

  function DigitValue(c: char): (d: nat)
    requires IsDigit(c)
    ensures d < 10
  {
    (c as int - '0' as int)
  }

  lemma DigitRoundTrip(d: nat)
    requires d < 10
    ensures DigitValue(DigitChar(d)) == d
  {
  }

  /** The decimal digits of n, most significant first. */
  function NatToString(n: nat): (s: string)
    ensures |s| >= 1
    ensures AllDigits(s)
    ensures s[0] == '0' ==> n == 0
    decreases n
  {
    if n < 10 then [DigitChar(n)]
    else NatToString(n / 10) + [DigitChar(n % 10)]
  }

  /** `Long.toString(n)`: a minus sign for negative values, then the magnitude. */
  function LongToString(n: int): (s: string)
    ensures |s| >= 1
    ensures s[0] == '-' <==> n < 0
    ensures n >= 0 ==> AllDigits(s)
    ensures n < 0 ==> |s| >= 2 && AllDigits(s[1..])
  {
    if n < 0 then "-" + NatToString(-n) else NatToString(n)
  }

  /** The value of a string of decimal digits, read most significant first. */
  function DigitsValue(s: string): nat
    requires AllDigits(s)
    decreases |s|
  {
    if |s| == 0 then 0
    else DigitsValue(s[..|s| - 1]) * 10 + DigitValue(s[|s| - 1])
  }

  /** Reads back what `LongToString` writes; Null for anything else. */
  function ParseLong(s: string): Nullable<int>
  {
    if |s| >= 2 && s[0] == '-' && AllDigits(s[1..]) then NonNull(0 - DigitsValue(s[1..]) as int)
    else if |s| >= 1 && AllDigits(s) then NonNull(DigitsValue(s))
    else Null
  }

  lemma {:induction false} NatRoundTrip(n: nat)
    ensures DigitsValue(NatToString(n)) == n
    decreases n
  {
    var s := NatToString(n);
    if n < 10 {
      DigitRoundTrip(n);
      assert s[..|s| - 1] == [];
    } else {
      NatRoundTrip(n / 10);
      assert s[..|s| - 1] == NatToString(n / 10);
      DigitRoundTrip(n % 10);
    }
  }

  /** A string of digits reads back as its value. */
  lemma {:induction false} ParseDigits(m: string)
    requires |m| >= 1 && AllDigits(m)
    ensures ParseLong(m) == NonNull(DigitsValue(m) as int)
  {
    assert IsDigit(m[0]);
  }

  /** A minus sign followed by digits reads back as the negated value. */
  lemma {:induction false} ParseMinusDigits(m: string)
    requires |m| >= 1 && AllDigits(m)
    ensures ParseLong("-" + m) == NonNull(0 - DigitsValue(m) as int)
  {
    assert ("-" + m)[1..] == m;
  }

  /** The digits of a natural number read back as that number. */
  lemma {:induction false} NatReadsBack(n: nat)
    ensures ParseLong(NatToString(n)) == NonNull(n)
  {
    ParseDigits(NatToString(n));
    NatRoundTrip(n);
  }

  /** A minus sign before the digits of k reads back as -k. */
  lemma {:induction false} NegativeReadsBack(k: nat)
    ensures ParseLong("-" + NatToString(k)) == NonNull(0 - k)
  {
    var m := NatToString(k);
    NatRoundTrip(k);
    ParseMinusDigits(m);
  }

  /** The decimal text of a long reads back as that long. */
  lemma {:induction false} LongRoundTrip(n: int)
    ensures ParseLong(LongToString(n)) == NonNull(n)
  {
    if n < 0 {
      var k: nat := -n;
      NegativeReadsBack(k);
      assert LongToString(n) == "-" + NatToString(k);
    } else {
      NatReadsBack(n);
      assert LongToString(n) == NatToString(n);
    }
  }

  /** Two longs render alike only if they are equal. */
  lemma LongToStringInjective(a: int, b: int)
    requires LongToString(a) == LongToString(b)
    ensures a == b
  {
    LongRoundTrip(a);
    LongRoundTrip(b);
  }
}
