/**
 * The JavaScript string built-ins the formatters and the locator encoder
 * rely on, restricted to what those callers use: `String(n)` /
 * `n.toString()` for a non-negative integer, and `s.padStart(k, c)` with a
 * one-character pad string.  `Value` reads a digit string back, so that
 * every rendering can be proved to decode to the number it renders.
 */
module Decimal {

  predicate IsDigit(c: char) { '0' <= c <= '9' }

  predicate IsDigits(s: string) { forall i :: 0 <= i < |s| ==> IsDigit(s[i]) }

  function DigitValue(c: char): (d: nat)
    requires IsDigit(c)
    ensures d < 10
  {
    c as int - '0' as int
  }

  function DigitChar(d: nat): (c: char)
    requires d < 10
    ensures IsDigit(c) && DigitValue(c) == d
  {
    ('0' as int + d) as char
  }

  function Pow10(k: nat): (p: nat)
    ensures p >= 1
  {
    if k == 0 then 1 else 10 * Pow10(k - 1)
  }

  /** Powers of ten grow with the exponent. */
  lemma {:induction false} PowMonotone(i: nat, j: nat)
    requires i <= j
    ensures Pow10(i) <= Pow10(j)
  {
    if i < j { PowMonotone(i, j - 1); }
  }

  /** The number a string of decimal digits denotes (most significant digit first). */
  function Value(s: string): nat
    requires IsDigits(s)
  {
    if s == [] then 0 else Value(s[..|s| - 1]) * 10 + DigitValue(s[|s| - 1])
  }

  /**
   * `String(n)` for a non-negative integer: the shortest digit string
   * denoting n, without leading zeros.
   */
  function Show(n: nat): (r: string)
    ensures |r| >= 1 && IsDigits(r)
    ensures Value(r) == n
    ensures r[0] == '0' ==> r == "0"
    ensures n < Pow10(|r|)
    ensures |r| > 1 ==> Pow10(|r| - 1) <= n
  {
    if n < 10 then [DigitChar(n)]
    else
      var r := Show(n / 10) + [DigitChar(n % 10)];
      assert r[..|r| - 1] == Show(n / 10);
      r
  }

  /** A single digit renders as one character. */
  lemma ShowDigit(d: nat)
    requires d < 10
    ensures Show(d) == [DigitChar(d)]
  {
  }

  /** A string of k copies of c. */
  function Repeat(c: char, k: nat): (r: string)
    ensures |r| == k && forall i :: 0 <= i < k ==> r[i] == c
  {
    if k == 0 then [] else [c] + Repeat(c, k - 1)
  }

  /** `s.padStart(targetLength, c)`: left-pad with c up to targetLength, never truncating. */
  function PadStart(s: string, targetLength: int, c: char): (r: string)
    ensures |r| == if |s| >= targetLength then |s| else targetLength
    ensures r[|r| - |s|..] == s
    ensures forall i :: 0 <= i < |r| - |s| ==> r[i] == c
  {
    if |s| >= targetLength then s else Repeat(c, targetLength - |s|) + s
  }

  /** One leading zero does not change the value of a digit string. */
  lemma {:induction false} ValueLeadingZero(s: string)
    requires IsDigits(s)
    ensures IsDigits(['0'] + s) && Value(['0'] + s) == Value(s)
  {
    var t := ['0'] + s;
    if s != [] {
      assert t[..|t| - 1] == ['0'] + s[..|s| - 1];
      ValueLeadingZero(s[..|s| - 1]);
    } else {
      assert t[..|t| - 1] == [];
    }
  }

  /** Any run of leading zeros does not change the value of a digit string. */
  lemma {:induction false} ValueLeadingZeros(k: nat, s: string)
    requires IsDigits(s)
    ensures IsDigits(Repeat('0', k) + s) && Value(Repeat('0', k) + s) == Value(s)
  {
    if k > 0 {
      ValueLeadingZeros(k - 1, s);
      assert Repeat('0', k) + s == ['0'] + (Repeat('0', k - 1) + s);
      ValueLeadingZero(Repeat('0', k - 1) + s);
    } else {
      assert Repeat('0', k) + s == s;
    }
  }

  /** Zero-padding a rendering keeps it a digit string denoting the same number. */
  lemma PaddedValue(n: nat, width: int)
    ensures IsDigits(PadStart(Show(n), width, '0'))
    ensures Value(PadStart(Show(n), width, '0')) == n
  {
    var s := Show(n);
    if |s| < width {
      ValueLeadingZeros(width - |s|, s);
    }
  }
}
