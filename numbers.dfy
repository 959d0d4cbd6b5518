/** Decimal conversion between integers and strings, as the filter state uses it
    when it writes a price with `toString()` and reads it back with
    `Number(...) || default`.  Only decimal integer numerals with an optional
    leading minus sign are modelled; JavaScript's other numeral forms are not. */
module Numbers {
  import opened Wrappers

  /** `Math.min` and `Math.max` on two integers. */
  function Min(a: int, b: int): int { if a <= b then a else b }
  function Max(a: int, b: int): int { if a >= b then a else b }

  predicate IsDigit(c: char) {
    '0' <= c <= '9'
  }

  predicate AllDigits(s: string) {
    forall i :: 0 <= i < |s| ==> IsDigit(s[i])
  }

  function DigitValue(c: char): (d: nat)
    requires IsDigit(c)
    ensures d < 10
  {
    (c as int) - ('0' as int)
  }

  function DigitChar(d: nat): (c: char)
    requires d < 10
    ensures IsDigit(c) && DigitValue(c) == d
  {
    (('0' as int) + d) as char
  }

  /** The decimal numeral of `n`, without leading zeros. */
  function NatToString(n: nat): (s: string)
    decreases n
  {
    if n < 10 then [DigitChar(n)] else NatToString(n / 10) + [DigitChar(n % 10)]
  }

  /** `Number.prototype.toString()` on an integer: a minus sign for a
      negative value, then a non-empty run of decimal digits. */
  function IntToString(n: int): (s: string)
    ensures |s| > 0
    ensures n >= 0 ==> AllDigits(s)
    ensures n < 0 ==> |s| > 1 && s[0] == '-' && AllDigits(s[1..])
    ensures n > 0 ==> s[0] != '0'
    ensures n == 0 ==> s == "0"
    ensures n < 0 ==> s[1] != '0'
  {
    if n < 0 then
      NatToStringDigits(-n);
      NatToStringCanonical(-n);
      var t := "-" + NatToString(-n);
      assert t[1..] == NatToString(-n);
      t
    else
      NatToStringDigits(n);
      NatToStringCanonical(n);
      NatToString(n)
  }

  /** The value of a string of decimal digits (the empty string has value 0). */
  function DigitsValue(s: string): nat
    requires AllDigits(s)
    decreases |s|
  {
    if s == [] then 0 else DigitsValue(s[..|s| - 1]) * 10 + DigitValue(s[|s| - 1])
  }

  /** `Number(s)` on a string: `Some(n)` for a decimal integer numeral,
      `None` where JavaScript yields NaN.  The empty string, which JavaScript
      reads as 0, is `None` here; both are falsy, so `NumberOr` agrees. */
  function ParseInt(s: string): (r: Option<int>)
    ensures r.Some? ==> |s| > 0
    ensures r.Some? && s[0] != '-' ==> AllDigits(s) && r.value >= 0
    ensures r.Some? && s[0] == '-' ==> |s| > 1 && AllDigits(s[1..]) && r.value <= 0
    ensures |s| > 0 && AllDigits(s) ==> r.Some?
  {
    if |s| > 0 && s[0] == '-' then
      if |s| > 1 && AllDigits(s[1..]) then Some(-(DigitsValue(s[1..]) as int)) else None
    else if |s| > 0 && AllDigits(s) then Some(DigitsValue(s))
    else None
  }

  /** `Number(v) || d` where `v` is what `URLSearchParams.get` returned:
      a missing key (`Number(null)` is 0), a non-numeric string (NaN) and
      zero are all falsy and give the default. */
  function NumberOr(v: Option<string>, d: int): (r: int)
    ensures v.None? ==> r == d
    ensures v.Some? && ParseInt(v.value).None? ==> r == d
    ensures v.Some? && ParseInt(v.value).Some? ==>
              r == if ParseInt(v.value).value == 0 then d else ParseInt(v.value).value
  {
    match v
    case None => d
    case Some(s) =>
      match ParseInt(s)
      case None => d
      case Some(n) => if n == 0 then d else n
  }

  lemma {:induction false} NatToStringDigits(n: nat)
    ensures |NatToString(n)| > 0
    ensures AllDigits(NatToString(n))
    ensures DigitsValue(NatToString(n)) == n
    decreases n
  {
    if n >= 10 {
      NatToStringDigits(n / 10);
      var s := NatToString(n / 10) + [DigitChar(n % 10)];
      assert s[..|s| - 1] == NatToString(n / 10);
    }
  }

  /** The numeral has no leading zero, except for zero itself. */
  lemma {:induction false} NatToStringCanonical(n: nat)
    ensures n > 0 ==> NatToString(n)[0] != '0'
    ensures n == 0 ==> NatToString(n) == "0"
    decreases n
  {
    if n >= 10 {
      NatToStringCanonical(n / 10);
    }
  }

  /** Writing an integer with `toString()` and reading it back with `Number`
      gives the integer again. */
  lemma ParseIntOfIntToString(n: int)
    ensures ParseInt(IntToString(n)) == Some(n)
  {
    if n < 0 {
      NatToStringDigits(-n);
      var s := IntToString(n);
      assert s[1..] == NatToString(-n);
    } else {
      NatToStringDigits(n);
    }
  }

  /** A numeral that `Number` reads as zero is read back as the default by
      `Number(...) || d`: this is why a written `0` does not survive. */
  lemma NumberOrOfZero(d: int)
    ensures NumberOr(Some(IntToString(0)), d) == d
  {
    ParseIntOfIntToString(0);
  }

  /** For any non-zero integer, writing it and reading it back with a default
      gives the integer, whatever the default. */
  lemma NumberOrRoundTrip(n: int, d: int)
    requires n != 0
    ensures NumberOr(Some(IntToString(n)), d) == n
  {
    ParseIntOfIntToString(n);
  }
}
