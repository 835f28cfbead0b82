/**
 * Decimal rendering of non-negative integers as Python formats them:
 * `str(n)` (used for `mic_{idx}`) and `f"{n:03d}"` (used for numbered
 * file names), together with a parser that inverts both.
 */
module Decimal {

  predicate IsDigit(c: char) { '0' <= c <= '9' }

  predicate AllDigits(s: string) { forall i :: 0 <= i < |s| ==> IsDigit(s[i]) }

  function DigitChar(d: nat): (c: char)
    requires d < 10
    ensures IsDigit(c) && c as int - '0' as int == d
  {
    (d + '0' as int) as char
  }

  function DigitValue(c: char): nat
    requires IsDigit(c)
  {
    c as int - '0' as int
  }

  /** `str(n)` for a non-negative integer: the shortest decimal numeral. */
  function NatToString(n: nat): (s: string)
    ensures |s| >= 1 && AllDigits(s)
    ensures n >= 10 ==> s[0] != '0'
    ensures n < 10 ==> s == [DigitChar(n)]
    decreases n
  {
    if n < 10 then [DigitChar(n)] else NatToString(n / 10) + [DigitChar(n % 10)]
  }

  function Zeros(k: nat): (s: string)
    ensures |s| == k && AllDigits(s)
    ensures forall i :: 0 <= i < k ==> s[i] == '0'
  {
    seq(k, _ => '0')
  }

  /** `f"{n:03d}"`: the numeral of `n`, left-padded with zeros to at least three digits. */
  function ZeroPad3(n: nat): (s: string)
    ensures |s| == if |NatToString(n)| < 3 then 3 else |NatToString(n)|
    ensures AllDigits(s)
  {
    var digits := NatToString(n);
    if |digits| < 3 then Zeros(3 - |digits|) + digits else digits
  }

  /** The value of a string of decimal digits (leading zeros allowed). */
  function Parse(s: string): nat
    requires AllDigits(s)
  {
    if s == [] then 0 else Parse(s[..|s| - 1]) * 10 + DigitValue(s[|s| - 1])
  }

  lemma {:induction false} ParseNatToString(n: nat)
    ensures Parse(NatToString(n)) == n
    decreases n
  {
    if n >= 10 {
      var s := NatToString(n);
      assert s[..|s| - 1] == NatToString(n / 10);
      ParseNatToString(n / 10);
    }
  }

  lemma {:induction false} ParseLeadingZeros(k: nat, s: string)
    requires AllDigits(s)
    ensures AllDigits(Zeros(k) + s) && Parse(Zeros(k) + s) == Parse(s)
    decreases k, |s|
  {
    if k > 0 {
      if s == [] {
        var t := Zeros(k);
        assert Zeros(k) + s == t;
        assert t[..|t| - 1] == Zeros(k - 1) + [];
        ParseLeadingZeros(k - 1, []);
        assert Parse(t) == Parse(t[..|t| - 1]) * 10 + DigitValue(t[|t| - 1]);
      } else {
        var t := Zeros(k) + s;
        assert t[..|t| - 1] == Zeros(k) + s[..|s| - 1];
        ParseLeadingZeros(k, s[..|s| - 1]);
        assert Parse(t) == Parse(t[..|t| - 1]) * 10 + DigitValue(t[|t| - 1]);
        assert Parse(s) == Parse(s[..|s| - 1]) * 10 + DigitValue(s[|s| - 1]);
      }
    } else {
      assert Zeros(k) + s == s;
    }
  }

  /** Reading back a zero-padded counter yields the counter. */
  lemma ParseZeroPad3(n: nat)
    ensures Parse(ZeroPad3(n)) == n
  {
    var digits := NatToString(n);
    ParseNatToString(n);
    if |digits| < 3 {
      ParseLeadingZeros(3 - |digits|, digits);
    }
  }

  /** Distinct counters are rendered as distinct strings. */
  lemma ZeroPad3Injective(a: nat, b: nat)
    requires ZeroPad3(a) == ZeroPad3(b)
    ensures a == b
  {
    ParseZeroPad3(a);
    ParseZeroPad3(b);
  }

  /** Distinct integers are rendered as distinct strings by `str`. */
  lemma NatToStringInjective(a: nat, b: nat)
    requires NatToString(a) == NatToString(b)
    ensures a == b
  {
    ParseNatToString(a);
    ParseNatToString(b);
  }
}
