/** Decimal rendering of natural numbers, as Python's `f"{n}"` prints a
    non-negative `int`, together with the digit-reading functions that invert it. */
module Decimal {
  import opened Strings

  predicate IsDigit(c: char) {
    '0' <= c <= '9'
  }

  predicate AllDigits(s: string) {
    forall i :: 0 <= i < |s| ==> IsDigit(s[i])
  }

  function DigitChar(d: nat): (c: char)
    requires d < 10
    ensures IsDigit(c) && DigitValue(c) == d
  {
    (48 + d) as char
  }

  function DigitValue(c: char): nat
    requires IsDigit(c)
  {
    c as int - 48
  }

  /** `str(n)`: no sign, no leading zero, "0" for zero. */
  function Dec(n: nat): (s: string)
    ensures |s| > 0
    decreases n
  {
    if n < 10 then [DigitChar(n)] else Dec(n / 10) + [DigitChar(n % 10)]
  }

  /** Only digits, and no leading zero except in "0". */
  lemma {:induction false} DecDigits(n: nat)
    ensures AllDigits(Dec(n))
    ensures Dec(n)[0] == '0' ==> n == 0
    decreases n
  {
    if n >= 10 {
      DecDigits(n / 10);
      var s := Dec(n);
      assert s == Dec(n / 10) + [DigitChar(n % 10)];
      assert s[0] == Dec(n / 10)[0];
      forall i | 0 <= i < |s| ensures IsDigit(s[i]) {
        if i < |s| - 1 { assert s[i] == Dec(n / 10)[i]; }
      }
    }
  }

  /** Reads a string of digits as a number, most significant digit first. */
  function DecValue(s: string): nat
    requires AllDigits(s)
    decreases |s|
  {
    if s == [] then 0 else DecValue(s[..|s| - 1]) * 10 + DigitValue(s[|s| - 1])
  }

  lemma {:induction false} DecRoundTrip(n: nat)
    ensures AllDigits(Dec(n)) && DecValue(Dec(n)) == n
    decreases n
  {
    DecDigits(n);
    if n >= 10 {
      var s := Dec(n);
      assert s[..|s| - 1] == Dec(n / 10);
      DecRoundTrip(n / 10);
    }
  }

  lemma DecInjective(a: nat, b: nat)
    ensures Dec(a) == Dec(b) <==> a == b
  {
    DecRoundTrip(a);
    DecRoundTrip(b);
  }

  /** The longest run of digits at the end of `s`. */
  function TrailingDigits(s: string): (r: string)
    ensures |r| <= |s| && AllDigits(r)
    decreases |s|
  {
    if s == [] || !IsDigit(s[|s| - 1]) then []
    else TrailingDigits(s[..|s| - 1]) + [s[|s| - 1]]
  }

  /** A run of digits that follows a non-digit (or the start) is read back whole. */
  lemma {:induction false} TrailingDigitsAfter(p: string, d: string)
    requires AllDigits(d)
    requires p == [] || !IsDigit(p[|p| - 1])
    ensures TrailingDigits(p + d) == d
    decreases |d|
  {
    if d == [] {
      assert p + d == p;
    } else {
      var s, d' := p + d, d[..|d| - 1];
      assert s[|s| - 1] == d[|d| - 1];
      assert IsDigit(d[|d| - 1]);
      assert s[..|s| - 1] == p + d';
      TrailingDigitsAfter(p, d');
      assert TrailingDigits(s) == d' + [d[|d| - 1]];
      assert d' + [d[|d| - 1]] == d;
    }
  }
}
