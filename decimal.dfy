/** Base-10 rendering of integers, as `strconv.FormatInt(n, 10)` writes it, and its inverse. */
module Decimal {
  predicate IsDigit(c: char)
  {
    '0' <= c <= '9'
  }

  function DigitChar(d: int): (c: char)
    requires 0 <= d < 10
    ensures IsDigit(c)
  {
    ('0' as int + d) as char
  }

  /** The digits of `n`, most significant first, with no leading zero. */
  function FormatNat(n: nat): (s: string)
    ensures |s| > 0 && (forall i :: 0 <= i < |s| ==> IsDigit(s[i]))
    ensures s[0] == '0' ==> n == 0
  {
    if n < 10 then [DigitChar(n)] else FormatNat(n / 10) + [DigitChar(n % 10)]
  }

  /** `strconv.FormatInt(n, 10)`: a minus sign before the digits of a negative number. */
  function FormatInt(n: int): (s: string)
    ensures |s| > 0
  {
    if n < 0 then "-" + FormatNat(-n) else FormatNat(n)
  }

  /** The number a string of decimal digits denotes. */
  function ParseNat(s: string): nat
    requires forall i :: 0 <= i < |s| ==> IsDigit(s[i])
  {
    if |s| == 0 then 0
    else
      assert IsDigit(s[|s| - 1]);
      ParseNat(s[..|s| - 1]) * 10 + (s[|s| - 1] as int - '0' as int)
  }

  /** The number a `FormatInt` rendering denotes; 0 for text that is not one. */
  function ParseInt(s: string): int
  {
    if |s| > 1 && s[0] == '-' && (forall i :: 1 <= i < |s| ==> IsDigit(s[i])) then -(ParseNat(s[1..]) as int)
    else if forall i :: 0 <= i < |s| ==> IsDigit(s[i]) then ParseNat(s)
    else 0
  }

  lemma {:induction false} ParseFormatNat(n: nat)
    ensures ParseNat(FormatNat(n)) == n
  {
    if n >= 10 {
      ParseFormatNat(n / 10);
      var s := FormatNat(n);
      assert s[..|s| - 1] == FormatNat(n / 10);
    }
  }

  /** Reading a rendering back gives the number rendered. */
  lemma ParseFormatInt(n: int)
    ensures ParseInt(FormatInt(n)) == n
  {
    if n < 0 {
      var s := FormatInt(n);
      assert s[1..] == FormatNat(-n);
      ParseFormatNat(-n);
    } else {
      ParseFormatNat(n);
    }
  }

  /** Distinct numbers have distinct renderings, so the rendering can serve as a label. */
  lemma FormatIntInjective(a: int, b: int)
    requires FormatInt(a) == FormatInt(b)
    ensures a == b
  {
    ParseFormatInt(a);
    ParseFormatInt(b);
  }
}
