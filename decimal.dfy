/** Python's `str()` of a non-negative integer, as used by the f-strings of
    the handler's error messages. */
module Decimal {

  predicate IsDigit(c: char) {
    '0' <= c <= '9'
  }

  predicate IsDigits(s: string) {
    s != [] && forall i :: 0 <= i < |s| ==> IsDigit(s[i])
  }

  function DigitChar(d: nat): (c: char)
    requires d < 10
    ensures IsDigit(c)
  {
    (48 + d) as char
  }

  function DigitValue(c: char): nat
    requires IsDigit(c)
  {
    c as int - 48
  }

  /** Decimal notation without leading zeros. */
  function NatToString(n: nat): (s: string)
    ensures IsDigits(s)
    ensures |s| == 1 || s[0] != '0'
    decreases n
  {
    if n < 10 then [DigitChar(n)] else NatToString(n / 10) + [DigitChar(n % 10)]
  }

  /** The number a string of decimal digits denotes. */
  function ParseDigits(s: string): nat
    requires forall i :: 0 <= i < |s| ==> IsDigit(s[i])
    decreases |s|
  {
    if s == [] then 0 else 10 * ParseDigits(s[..|s| - 1]) + DigitValue(s[|s| - 1])
  }

  /** Reading back the decimal notation of `n` gives `n`. */
  lemma {:induction false} ParseNatToString(n: nat)
    ensures ParseDigits(NatToString(n)) == n
    decreases n
  {
    var s := NatToString(n);
    if n >= 10 {
      assert s[..|s| - 1] == NatToString(n / 10);
      ParseNatToString(n / 10);
    }
  }


  /** The longest run of digits a string starts with. */
  function DigitPrefix(s: string): (p: string)
    ensures p <= s
    ensures forall i :: 0 <= i < |p| ==> IsDigit(p[i])
  {
    if s != [] && IsDigit(s[0]) then [s[0]] + DigitPrefix(s[1..]) else []
  }

  /** A run of digits followed by text that does not start with a digit is
      exactly the digit run that text starts with: a number written into a
      message can be read back out of it. */
  lemma {:induction false} DigitPrefixOf(a: string, t: string)
    requires forall i :: 0 <= i < |a| ==> IsDigit(a[i])
    requires t == [] || !IsDigit(t[0])
    ensures DigitPrefix(a + t) == a
  {
    if a != [] {
      assert (a + t)[1..] == a[1..] + t;
      DigitPrefixOf(a[1..], t);
    }
  }
}
