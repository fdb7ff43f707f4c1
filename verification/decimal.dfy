/** Decimal numerals as JavaScript produces and reads them: the canonical property
    key of an integer-valued key (`0xa0` becomes the key "160") and `parseInt` with
    its default radix. */
module Decimal {
  import opened Js

  predicate IsDigit(c: char)
  {
    '0' <= c <= '9'
  }

  predicate AllDigits(s: string)
  {
    forall i | 0 <= i < |s| :: IsDigit(s[i])
  }

  function DigitChar(d: nat): (c: char)
    requires d < 10
    ensures IsDigit(c)
    ensures c as int - '0' as int == d
  {
    ('0' as int + d) as char
  }

  function DigitValue(c: char): (d: nat)
    requires IsDigit(c)
    ensures d < 10
    ensures DigitChar(d) == c
  {
    c as int - '0' as int
  }

  /** The canonical decimal string of `n`: the key JavaScript uses for an integer
      property name. */
  function Dec(n: nat): (s: string)
    ensures 0 < |s|
    ensures AllDigits(s)
    ensures s[0] == '0' ==> n == 0
  {
    if n < 10 then [DigitChar(n)] else Dec(n / 10) + [DigitChar(n % 10)]
  }

  /** The number a digit string denotes, most significant digit first. */
  function DigitsValue(s: string): nat
    requires AllDigits(s)
  {
    if |s| == 0 then 0 else DigitsValue(s[..|s| - 1]) * 10 + DigitValue(s[|s| - 1])
  }

  /** The longest prefix of `s` made of decimal digits. */
  function DigitPrefix(s: string): (p: string)
    ensures AllDigits(p)
    ensures p <= s
    ensures |p| < |s| ==> !IsDigit(s[|p|])
  {
    if |s| == 0 || !IsDigit(s[0]) then [] else [s[0]] + DigitPrefix(s[1..])
  }

  /** `parseInt(s)` on a string without leading blanks or sign: the value of the
      leading run of digits, or `None` (NaN) when there is none. */
  function ParseInt(s: string): (r: Option<nat>)
    ensures r.None? <==> (|s| == 0 || !IsDigit(s[0]))
  {
    var p := DigitPrefix(s);
    if |p| == 0 then None else Some(DigitsValue(p))
  }

  lemma {:induction false} DigitPrefixOfDigits(s: string)
    requires AllDigits(s)
    ensures DigitPrefix(s) == s
  {
    if |s| > 0 {
      DigitPrefixOfDigits(s[1..]);
      assert [s[0]] + s[1..] == s;
    }
  }

  lemma {:induction false} DigitsValueOfDec(n: nat)
    ensures DigitsValue(Dec(n)) == n
  {
    if n >= 10 {
      var s := Dec(n);
      DigitsValueOfDec(n / 10);
      assert s[..|s| - 1] == Dec(n / 10);
    }
  }

  /** `parseInt` reads back exactly the number whose key was rendered. */
  lemma ParseIntOfDec(n: nat)
    ensures ParseInt(Dec(n)) == Some(n)
  {
    DigitPrefixOfDigits(Dec(n));
    DigitsValueOfDec(n);
  }

  /** Distinct numbers have distinct keys. */
  lemma DecInjective(m: nat, n: nat)
    ensures Dec(m) == Dec(n) <==> m == n
  {
    ParseIntOfDec(m);
    ParseIntOfDec(n);
  }

  /** A string that starts with a non-digit is never the key of a number. */
  lemma NotDecOfNonDigit(s: string, n: nat)
    requires |s| > 0 && !IsDigit(s[0])
    ensures s != Dec(n)
  {
  }
}
