/**
 * Decimal digit strings: `parseInt` of an all-digit string and `String(n)`
 * of a natural number, and the round trip between the two.
 */
module Digits {

  /** The `\d` class of a regular expression without the `u` flag. */
  predicate IsDigit(c: char) {
    '0' <= c <= '9'
  }

  predicate AllDigits(s: string) {
    forall k :: 0 <= k < |s| ==> IsDigit(s[k])
  }

  function DigitValue(c: char): (d: nat)
    requires IsDigit(c)
    ensures d < 10
  {
    (c as int - '0' as int) as nat
  }

  function DigitChar(d: nat): (c: char)
    requires d < 10
    ensures IsDigit(c) && DigitValue(c) == d
  {
    ('0' as int + d) as char
  }

  /** `parseInt(s, 10)` of a string made only of decimal digits. */
  function Value(s: string): (n: nat)
    requires AllDigits(s)
  {
    if s == [] then 0 else Value(s[..|s| - 1]) * 10 + DigitValue(s[|s| - 1])
  }

  /** The values of one- and two-digit strings, as `parseInt` reads them ("09" is 9). */
  lemma ValueShort(s: string)
    requires AllDigits(s) && 1 <= |s| <= 2
    ensures |s| == 1 ==> Value(s) == DigitValue(s[0])
    ensures |s| == 2 ==> Value(s) == DigitValue(s[0]) * 10 + DigitValue(s[1])
    ensures Value(s) < 100
  {
  }

  /** `String(n)`: the shortest decimal spelling of n. */
  function DecimalString(n: nat): (s: string)
    ensures |s| >= 1 && AllDigits(s)
    ensures (|s| == 1) == (n < 10)
    ensures n < 100 ==> |s| <= 2
    ensures s[0] == '0' ==> n == 0
    decreases n
  {
    if n < 10 then [DigitChar(n)] else DecimalString(n / 10) + [DigitChar(n % 10)]
  }

  /** Reading back what `String(n)` wrote gives n. */
  lemma {:induction false} ValueOfDecimalString(n: nat)
    ensures Value(DecimalString(n)) == n
    decreases n
  {
    var s := DecimalString(n);
    if n < 10 {
      assert s[..|s| - 1] == [];
    } else {
      ValueOfDecimalString(n / 10);
      assert s[..|s| - 1] == DecimalString(n / 10);
    }
  }

  /** A string of leading zeros adds nothing to the value. */
  lemma {:induction false} ValueOfZeroPrefix(z: nat, s: string)
    requires AllDigits(s)
    ensures AllDigits(Zeros(z) + s) && Value(Zeros(z) + s) == Value(s)
    decreases |s|
  {
    var t := Zeros(z) + s;
    assert AllDigits(t) by {
      forall k | 0 <= k < |t| ensures IsDigit(t[k]) {
        if k < z { assert t[k] == Zeros(z)[k]; }
      }
    }
    if s == [] {
      assert t == Zeros(z);
      ValueOfZeros(z);
    } else {
      assert t[..|t| - 1] == Zeros(z) + s[..|s| - 1];
      ValueOfZeroPrefix(z, s[..|s| - 1]);
    }
  }

  function Zeros(z: nat): (r: string)
    ensures |r| == z && forall k :: 0 <= k < z ==> r[k] == '0'
  {
    seq(z, _ => '0')
  }

  lemma {:induction false} ValueOfZeros(z: nat)
    ensures AllDigits(Zeros(z)) && Value(Zeros(z)) == 0
    decreases z
  {
    if z > 0 {
      assert Zeros(z)[..z - 1] == Zeros(z - 1);
      ValueOfZeros(z - 1);
    }
  }
}
