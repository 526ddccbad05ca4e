/** Decimal text of integers, as Java's `println(int)` produces it and as
    JavaScript's `n + ''` produces it for integers below 10^21. */
module Decimal {

  function DigitChar(d: nat): (c: char)
    requires d < 10
    ensures '0' <= c <= '9'
    ensures c as int - '0' as int == d
  {
    ('0' as int + d) as char
  }

  /** The number a text of decimal digits denotes, most significant digit
      first. */
  function DigitsValue(s: string): int
  {
    if s == [] then 0
    else DigitsValue(s[..|s| - 1]) * 10 + (s[|s| - 1] as int - '0' as int)
  }

  /** The decimal digits of a natural number, without leading zeros: the
      digits denote n, and the first one is '0' only for 0 itself. */
  function NaturalToString(n: nat): (s: string)
    ensures 1 <= |s|
    ensures n < 10 <==> |s| == 1
    ensures forall i :: 0 <= i < |s| ==> '0' <= s[i] <= '9'
    ensures DigitsValue(s) == n
    ensures s[0] == '0' <==> n == 0
  {
    if n < 10 then [DigitChar(n)]
    else
      var prefix := NaturalToString(n / 10);
      var s := prefix + [DigitChar(n % 10)];
      assert s[..|s| - 1] == prefix;
      s
  }

  /** The decimal text of an integer: a minus sign exactly for negative
      numbers, then the digits of its magnitude, without leading zeros. */
  function IntToString(n: int): (s: string)
    ensures 1 <= |s|
    ensures s[0] == '-' <==> n < 0
    ensures forall i :: (if n < 0 then 1 else 0) <= i < |s| ==> '0' <= s[i] <= '9'
    ensures n >= 0 ==> DigitsValue(s) == n
    ensures n < 0 ==> 2 <= |s| && DigitsValue(s[1..]) == -n && s[1] != '0'
    ensures n >= 0 ==> (s[0] == '0' <==> n == 0) && (n == 0 ==> |s| == 1)
  {
    if n < 0 then
      var digits := NaturalToString(-n);
      var s := "-" + digits;
      assert s[1..] == digits;
      s
    else NaturalToString(n)
  }
}
