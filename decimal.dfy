/**
 * Decimal rendering of integers, as Go's `%d` verb writes them, and its
 * inverse. The update errors and the Kea app path embed integers this way.
 */
module Decimal {

  predicate IsDigit(c: char) { '0' <= c <= '9' }

  function DigitChar(d: nat): (c: char)
    requires d < 10
    ensures IsDigit(c) && c as int - '0' as int == d
  {
    ('0' as int + d) as char
  }

  /** The digits of n, most significant first, with no leading zero. */
  function Digits(n: nat): (s: string)
    ensures |s| >= 1
    ensures forall i :: 0 <= i < |s| ==> IsDigit(s[i])
    ensures |s| > 1 ==> s[0] != '0'
    decreases n
  {
    if n < 10 then [DigitChar(n)] else Digits(n / 10) + [DigitChar(n % 10)]
  }

  /** Go's `fmt.Sprintf("%d", n)`: a minus sign, then the digits of |n|. */
  function Format(n: int): (s: string)
    ensures |s| >= 1
    ensures s[0] == '-' <==> n < 0
    ensures forall i :: (if n < 0 then 1 else 0) <= i < |s| ==> IsDigit(s[i])
  {
    if n < 0 then "-" + Digits(-n) else Digits(n)
  }

  function ParseDigits(s: string): nat
    requires forall i :: 0 <= i < |s| ==> IsDigit(s[i])
  {
    if s == [] then 0
    else
      assert IsDigit(s[|s| - 1]);
      ParseDigits(s[..|s| - 1]) * 10 + (s[|s| - 1] as int - '0' as int)
  }

  /** An optional minus sign followed by digits. */
  predicate Parsable(s: string)
  {
    && |s| >= 1
    && (s[0] == '-' || IsDigit(s[0]))
    && forall i :: 1 <= i < |s| ==> IsDigit(s[i])
  }

  /** Reads back what Format writes. */
  function Parse(s: string): int
    requires Parsable(s)
  {
    if s[0] == '-' then -(ParseDigits(s[1..]) as int) else ParseDigits(s)
  }

  lemma {:induction false} ParseDigitsOfDigits(n: nat)
    ensures ParseDigits(Digits(n)) == n
    decreases n
  {
    if n >= 10 {
      var s := Digits(n);
      assert s[..|s| - 1] == Digits(n / 10);
      ParseDigitsOfDigits(n / 10);
    }
  }

  /** Parse undoes Format for every integer. */
  lemma FormatRoundTrip(n: int)
    ensures Parsable(Format(n)) && Parse(Format(n)) == n
  {
    var s := Format(n);
    if n < 0 {
      var d := Digits(-n);
      assert s[1..] == d;
      forall i | 1 <= i < |s|
        ensures IsDigit(s[i])
      {
        assert s[i] == d[i - 1];
      }
      ParseDigitsOfDigits(-n);
    } else {
      ParseDigitsOfDigits(n);
    }
  }

  /** Distinct integers render as distinct strings. */
  lemma FormatInjective(a: int, b: int)
    requires Format(a) == Format(b)
    ensures a == b
  {
    FormatRoundTrip(a);
    FormatRoundTrip(b);
  }
}
