/**
 * The few string operations the front end leans on: ASCII lower-casing,
 * substring search, number-to-text in base 10 and base 2, and padStart.
 */
module Text {

  /** String.prototype.toLowerCase on one character (ASCII letters only). */
  function LowerChar(c: char): char {
    if 'A' <= c <= 'Z' then (c as int + 32) as char else c
  }

  predicate IsUpper(c: char) {
    'A' <= c <= 'Z'
  }

  /** String.prototype.toLowerCase, character by character. */
  function Lower(s: string): (t: string)
    ensures |t| == |s|
    ensures forall i :: 0 <= i < |s| ==> t[i] == LowerChar(s[i])
    ensures forall i :: 0 <= i < |t| ==> !IsUpper(t[i])
  {
    if s == [] then [] else [LowerChar(s[0])] + Lower(s[1..])
  }

  /** Lower-casing twice is lower-casing once. */
  lemma LowerIdempotent(s: string)
    ensures Lower(Lower(s)) == Lower(s)
  {
    var once := Lower(s);
    assert forall i :: 0 <= i < |once| ==> LowerChar(once[i]) == once[i];
  }

  /** String.prototype.includes: needle occurs in hay. */
  function Contains(needle: string, hay: string): bool
    decreases |hay|
  {
    |needle| <= |hay| && (hay[..|needle|] == needle || (|hay| > 0 && Contains(needle, hay[1..])))
  }

  /** The needle starts at offset i of hay. */
  predicate OccursAt(needle: string, hay: string, i: int) {
    0 <= i <= |hay| - |needle| && hay[i..i + |needle|] == needle
  }

  /** Contains finds exactly the offsets at which the needle starts. */
  lemma {:induction false} ContainsIff(needle: string, hay: string)
    ensures Contains(needle, hay) <==> exists i :: OccursAt(needle, hay, i)
    decreases |hay|
  {
    if |needle| <= |hay| && hay[..|needle|] != needle && |hay| > 0 {
      ContainsIff(needle, hay[1..]);
      if Contains(needle, hay[1..]) {
        var i :| OccursAt(needle, hay[1..], i);
        assert hay[i + 1..i + 1 + |needle|] == hay[1..][i..i + |needle|];
        assert OccursAt(needle, hay, i + 1);
      }
      if exists i :: OccursAt(needle, hay, i) {
        var i :| OccursAt(needle, hay, i);
        assert i != 0;
        assert hay[1..][i - 1..i - 1 + |needle|] == hay[i..i + |needle|];
        assert OccursAt(needle, hay[1..], i - 1);
      }
    } else if |needle| <= |hay| && hay[..|needle|] == needle {
      assert OccursAt(needle, hay, 0);
    }
  }

  /** The empty string occurs in every string. */
  lemma ContainsEmpty(hay: string)
    ensures Contains("", hay)
  {
    assert hay[..0] == "";
  }

  // ---------------------------------------------------------------------------
  // Number.prototype.toString(base) on non-negative integers
  // ---------------------------------------------------------------------------

  function DigitChar(d: nat): char
    requires d < 10
  {
    ('0' as int + d) as char
  }

  function DigitValue(c: char): int {
    c as int - '0' as int
  }

  predicate IsDigit(c: char, base: nat) {
    0 <= DigitValue(c) < base
  }

  /** n written in base 2 or 10 (the bases the program uses), most significant digit first, with no leading zero. */
  function ToBase(n: nat, base: nat): (s: string)
    requires base == 2 || base == 10
    ensures |s| >= 1
    ensures forall i :: 0 <= i < |s| ==> IsDigit(s[i], base)
    ensures n > 0 ==> s[0] != '0'
    decreases n
  {
    if n < base then [DigitChar(n)] else ToBase(n / base, base) + [DigitChar(n % base)]
  }

  /** The number a string of digits denotes. */
  function ValueOf(s: string, base: nat): int
    decreases |s|
  {
    if s == [] then 0 else ValueOf(s[..|s| - 1], base) * base + DigitValue(s[|s| - 1])
  }

  /** Appending a digit shifts the value up one place. */
  lemma ValueAppend(s: string, c: char, base: nat)
    ensures ValueOf(s + [c], base) == ValueOf(s, base) * base + DigitValue(c)
  {
    assert (s + [c])[..|s|] == s;
  }

  lemma DigitRoundTrip(d: nat)
    requires d < 10
    ensures DigitValue(DigitChar(d)) == d
  {
  }

  /** Reading the digits back gives the number. */
  lemma {:induction false} ToBaseValue(n: nat, base: nat)
    requires base == 2 || base == 10
    ensures ValueOf(ToBase(n, base), base) == n
    decreases n
  {
    if n >= base {
      var q, r := n / base, n % base;
      ToBaseValue(q, base);
      ValueAppend(ToBase(q, base), DigitChar(r), base);
      DigitRoundTrip(r);
      assert n == q * base + r;
    } else {
      DigitRoundTrip(n);
      ValueAppend([], DigitChar(n), base);
      assert [] + [DigitChar(n)] == [DigitChar(n)];
    }
  }

  /** The decimal text of an integer, with a minus sign when it is negative. */
  function Decimal(i: int): (s: string)
    ensures |s| >= 1
  {
    if i < 0 then "-" + ToBase(-i, 10) else ToBase(i, 10)
  }

  /** A decimal text reads back as its integer. */
  lemma DecimalValue(i: int)
    ensures i >= 0 ==> ValueOf(Decimal(i), 10) == i
    ensures i < 0 ==> Decimal(i)[0] == '-' && ValueOf(Decimal(i)[1..], 10) == -i
  {
    if i >= 0 {
      ToBaseValue(i, 10);
    } else {
      ToBaseValue(-i, 10);
      assert Decimal(i)[1..] == ToBase(-i, 10);
    }
  }

  function Repeat(c: char, k: nat): (s: string)
    ensures |s| == k && forall i :: 0 <= i < k ==> s[i] == c
  {
    if k == 0 then [] else [c] + Repeat(c, k - 1)
  }

  /** String.prototype.padStart(len, c) with a one-character pad. */
  function PadStart(s: string, len: nat, c: char): (t: string)
    ensures |s| >= len ==> t == s
    ensures |s| < len ==> |t| == len && t[len - |s|..] == s && forall i :: 0 <= i < len - |s| ==> t[i] == c
  {
    if |s| >= len then s else Repeat(c, len - |s|) + s
  }

  /** A run of zeros denotes 0. */
  lemma {:induction false} ZerosZero(k: nat, base: nat)
    ensures ValueOf(Repeat('0', k), base) == 0
  {
    if k > 0 {
      ZerosZero(k - 1, base);
      var z := Repeat('0', k);
      assert z[..k - 1] == Repeat('0', k - 1);
    }
  }

  /** Leading zeros do not change the value of a digit string. */
  lemma {:induction false} ZerosValue(k: nat, s: string, base: nat)
    ensures ValueOf(Repeat('0', k) + s, base) == ValueOf(s, base)
    decreases |s|
  {
    var z := Repeat('0', k);
    if s == [] {
      assert z + s == z;
      ZerosZero(k, base);
    } else {
      ZerosValue(k, s[..|s| - 1], base);
      assert (z + s)[..|z + s| - 1] == z + s[..|s| - 1];
    }
  }

  function Power(b: nat, e: nat): (p: nat)
    ensures b >= 1 ==> p >= 1
  {
    if e == 0 then 1 else b * Power(b, e - 1)
  }

  /** A number below b^k has at most k digits (k >= 1). */
  lemma {:induction false} LengthBound(n: nat, base: nat, k: nat)
    requires (base == 2 || base == 10) && 1 <= k && n < Power(base, k)
    ensures |ToBase(n, base)| <= k
    decreases n
  {
    if n >= base {
      var p, q := Power(base, k - 1), n / base;
      assert Power(base, k) == base * p;
      LengthBound(q, base, k - 1);
    }
  }
}
