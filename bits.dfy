/**
 * Bit arithmetic on basis-state indices. Bit 0 is the least significant bit.
 */
module Bits {

  function Pow2(k: nat): (p: nat)
    ensures p >= 1
  {
    if k == 0 then 1 else 2 * Pow2(k - 1)
  }

  /** Bit t of x. */
  function Bit(x: nat, t: nat): (b: nat)
    ensures b < 2
  {
    if t == 0 then x % 2 else Bit(x / 2, t - 1)
  }

  /** x with bit t replaced by b. */
  function WithBit(x: nat, t: nat, b: nat): nat
    requires b < 2
  {
    if t == 0 then 2 * (x / 2) + b else 2 * WithBit(x / 2, t - 1, b) + x % 2
  }

  /** x with bit t inverted. */
  function Flip(x: nat, t: nat): nat {
    WithBit(x, t, 1 - Bit(x, t))
  }

  /** r and c agree on every bit below m except bit t (t may lie outside [0, m)). */
  predicate AgreeExcept(r: nat, c: nat, t: int, m: nat)
    decreases m
  {
    if m == 0 then true
    else (t == 0 || r % 2 == c % 2) && AgreeExcept(r / 2, c / 2, t - 1, m - 1)
  }

  lemma {:induction false} Pow2Add(a: nat, b: nat)
    ensures Pow2(a + b) == Pow2(a) * Pow2(b)
  {
    if a > 0 {
      Pow2Add(a - 1, b);
    }
  }

  lemma {:induction false} Pow2Monotone(a: nat, b: nat)
    requires a <= b
    ensures Pow2(a) <= Pow2(b)
  {
    if a < b {
      Pow2Monotone(a, b - 1);
    }
  }

  /** Replacing one bit below m keeps an index below 2^m. */
  lemma {:induction false} WithBitBelow(x: nat, t: nat, b: nat, m: nat)
    requires b < 2 && x < Pow2(m) && t < m
    ensures WithBit(x, t, b) < Pow2(m)
  {
    assert Pow2(m) == 2 * Pow2(m - 1);
    assert x / 2 < Pow2(m - 1);
    if t > 0 {
      WithBitBelow(x / 2, t - 1, b, m - 1);
      assert WithBit(x, t, b) == 2 * WithBit(x / 2, t - 1, b) + x % 2;
    }
  }

  /** Reading back a replaced bit gives the new value; every other bit is untouched. */
  lemma {:induction false} BitOfWithBit(x: nat, t: nat, b: nat, u: nat)
    requires b < 2
    ensures Bit(WithBit(x, t, b), u) == if u == t then b else Bit(x, u)
  {
    if t == 0 {
      if u > 0 {
        assert WithBit(x, t, b) / 2 == x / 2;
      }
    } else if u > 0 {
      BitOfWithBit(x / 2, t - 1, b, u - 1);
      assert WithBit(x, t, b) / 2 == WithBit(x / 2, t - 1, b);
    }
  }

  /** Setting bit t to 1 instead of 0 adds 2^t. */
  lemma {:induction false} WithBitOne(x: nat, t: nat)
    ensures WithBit(x, t, 1) == WithBit(x, t, 0) + Pow2(t)
  {
    if t > 0 {
      WithBitOne(x / 2, t - 1);
    }
  }

  /** Writing a bit's own value back changes nothing. */
  lemma {:induction false} WithBitOwn(x: nat, t: nat)
    ensures WithBit(x, t, Bit(x, t)) == x
  {
    if t > 0 {
      WithBitOwn(x / 2, t - 1);
    }
  }

  /** Writing bit t twice keeps the second value. */
  lemma {:induction false} WithBitTwice(x: nat, t: nat, b: nat, b': nat)
    requires b < 2 && b' < 2
    ensures WithBit(WithBit(x, t, b), t, b') == WithBit(x, t, b')
  {
    if t == 0 {
      assert WithBit(x, t, b) / 2 == x / 2;
    } else {
      WithBitTwice(x / 2, t - 1, b, b');
      assert WithBit(x, t, b) / 2 == WithBit(x / 2, t - 1, b);
      assert WithBit(x, t, b) % 2 == x % 2;
    }
  }

  /** With t outside [0, m), agreeing on all bits but t means being equal. */
  lemma {:induction false} AgreeOutside(r: nat, c: nat, t: int, m: nat)
    requires r < Pow2(m) && c < Pow2(m) && !(0 <= t < m)
    ensures AgreeExcept(r, c, t, m) <==> r == c
    decreases m
  {
    if m > 0 {
      AgreeOutside(r / 2, c / 2, t - 1, m - 1);
    }
  }

  /** With 0 <= t < m, the indices that agree with r off bit t are exactly r with bit t set to 0 and to 1. */
  lemma {:induction false} AgreeInside(r: nat, c: nat, t: nat, m: nat)
    requires r < Pow2(m) && c < Pow2(m) && t < m
    ensures AgreeExcept(r, c, t, m) <==> (c == WithBit(r, t, 0) || c == WithBit(r, t, 1))
  {
    assert Pow2(m) == 2 * Pow2(m - 1);
    assert r / 2 < Pow2(m - 1) && c / 2 < Pow2(m - 1);
    assert c == 2 * (c / 2) + c % 2;
    if t == 0 {
      AgreeOutside(r / 2, c / 2, -1, m - 1);
      assert AgreeExcept(r, c, t, m) <==> r / 2 == c / 2;
      assert WithBit(r, t, 0) == 2 * (r / 2) && WithBit(r, t, 1) == 2 * (r / 2) + 1;
    } else {
      AgreeInside(r / 2, c / 2, t - 1, m - 1);
      var w0, w1 := WithBit(r / 2, t - 1, 0), WithBit(r / 2, t - 1, 1);
      assert AgreeExcept(r, c, t, m) <==> r % 2 == c % 2 && (c / 2 == w0 || c / 2 == w1);
      assert WithBit(r, t, 0) == 2 * w0 + r % 2 && WithBit(r, t, 1) == 2 * w1 + r % 2;
    }
  }

  /** The two bits l+1 and l of x as a number 0..3, bit l+1 being the high one. */
  function PairOf(x: nat, l: nat): (p: nat)
    ensures p < 4
  {
    2 * Bit(x, l + 1) + Bit(x, l)
  }

  /** x with bits l+1 and l replaced by the two bits of p. */
  function WithPair(x: nat, l: nat, p: nat): nat
    requires p < 4
  {
    WithBit(WithBit(x, l + 1, p / 2), l, p % 2)
  }

  /** Replacing two different bits can be done in either order. */
  lemma {:induction false} WithBitSwap(x: nat, a: nat, b: nat, c: nat, d: nat)
    requires b < 2 && d < 2 && a != c
    ensures WithBit(WithBit(x, a, b), c, d) == WithBit(WithBit(x, c, d), a, b)
  {
    if a > 0 && c > 0 {
      WithBitSwap(x / 2, a - 1, b, c - 1, d);
      assert WithBit(x, a, b) / 2 == WithBit(x / 2, a - 1, b) && WithBit(x, a, b) % 2 == x % 2;
      assert WithBit(x, c, d) / 2 == WithBit(x / 2, c - 1, d) && WithBit(x, c, d) % 2 == x % 2;
    } else if a == 0 {
      assert WithBit(x, c, d) / 2 == WithBit(x / 2, c - 1, d);
      assert WithBit(x, a, b) / 2 == x / 2;
    } else {
      assert WithBit(x, a, b) / 2 == WithBit(x / 2, a - 1, b);
      assert WithBit(x, c, d) / 2 == x / 2;
    }
  }

  /** Reading back the replaced pair gives p. */
  lemma PairOfWithPair(x: nat, l: nat, p: nat)
    requires p < 4
    ensures PairOf(WithPair(x, l, p), l) == p
  {
    BitOfWithBit(WithBit(x, l + 1, p / 2), l, p % 2, l);
    BitOfWithBit(WithBit(x, l + 1, p / 2), l, p % 2, l + 1);
    BitOfWithBit(x, l + 1, p / 2, l + 1);
  }

  /** The four values of the pair lie 2^l apart: WithPair(x, l, p) is WithPair(x, l, 0) + p * 2^l. */
  lemma WithPairOffset(x: nat, l: nat, p: nat)
    requires p < 4
    ensures WithPair(x, l, p) == WithPair(x, l, 0) + p * Pow2(l)
  {
    var P := Pow2(l);
    if p == 1 || p == 3 {
      WithBitOne(WithBit(x, l + 1, p / 2), l);
    }
    if p >= 2 {
      PairHighBit(x, l);
    }
    if p == 3 {
      assert WithPair(x, l, 3) == WithPair(x, l, 2) + P;
      assert 3 * P == 2 * P + P;
    }
  }

  /** Setting bit l+1 of the cleared pair adds 2^(l+1). */
  lemma PairHighBit(x: nat, l: nat)
    ensures WithPair(x, l, 2) == WithPair(x, l, 0) + 2 * Pow2(l)
  {
    WithBitSwap(x, l + 1, 1, l, 0);
    WithBitSwap(x, l + 1, 0, l, 0);
    WithBitOne(WithBit(x, l, 0), l + 1);
  }

  /** Moving the pair one place up is the same as replacing it in x / 2 and putting bit 0 back. */
  lemma WithPairShift(x: nat, l: nat, p: nat)
    requires p < 4
    ensures PairOf(x, l + 1) == PairOf(x / 2, l)
    ensures WithPair(x, l + 1, p) == 2 * WithPair(x / 2, l, p) + x % 2
  {
    var y := WithBit(x, l + 2, p / 2);
    assert y == 2 * WithBit(x / 2, l + 1, p / 2) + x % 2;
    assert y / 2 == WithBit(x / 2, l + 1, p / 2) && y % 2 == x % 2;
  }

  /** At l = 0 the pair is the residue modulo 4. */
  lemma PairLow(x: nat, p: nat)
    requires p < 4
    ensures PairOf(x, 0) == x % 4
    ensures WithPair(x, 0, p) == 4 * (x / 4) + p
  {
    var h := x / 2;
    assert x == 2 * h + x % 2;
    assert h == 2 * (h / 2) + h % 2;
    assert x == 4 * (h / 2) + 2 * (h % 2) + x % 2;
    assert x / 4 == h / 2 && x % 4 == 2 * (h % 2) + x % 2;
    assert Bit(x, 1) == Bit(h, 0) == h % 2;
    var y := WithBit(x, 1, p / 2);
    assert WithBit(h, 0, p / 2) == 2 * (h / 2) + p / 2;
    assert y == 2 * (2 * (h / 2) + p / 2) + x % 2;
    assert y / 2 == 2 * (h / 2) + p / 2;
  }

  /** Replacing the pair keeps an index below 2^m when l + 1 < m. */
  lemma WithPairBelow(x: nat, l: nat, p: nat, m: nat)
    requires p < 4 && x < Pow2(m) && l + 1 < m
    ensures WithPair(x, l, p) < Pow2(m)
  {
    WithBitBelow(x, l + 1, p / 2, m);
    WithBitBelow(WithBit(x, l + 1, p / 2), l, p % 2, m);
  }

  /** Flipping bit t inverts that bit and keeps every other. */
  lemma FlipBit(x: nat, t: nat, u: nat)
    ensures Bit(Flip(x, t), u) == if u == t then 1 - Bit(x, t) else Bit(x, u)
  {
    BitOfWithBit(x, t, 1 - Bit(x, t), u);
  }

  /** Flipping the same bit twice gives back the index. */
  lemma FlipTwice(x: nat, t: nat)
    ensures Flip(Flip(x, t), t) == x
  {
    FlipBit(x, t, t);
    WithBitTwice(x, t, 1 - Bit(x, t), Bit(x, t));
    WithBitOwn(x, t);
  }

  /** Flipping a clear bit adds 2^t; flipping a set bit subtracts it. */
  lemma FlipOrder(x: nat, t: nat)
    ensures Bit(x, t) == 0 ==> Flip(x, t) == x + Pow2(t)
    ensures Bit(x, t) == 1 ==> Flip(x, t) + Pow2(t) == x
  {
    WithBitOne(x, t);
    WithBitOwn(x, t);
  }

  /** Every bit at or above position t of a number below 2^t is clear. */
  lemma {:induction false} BitAbove(x: nat, t: nat)
    requires x < Pow2(t)
    ensures Bit(x, t) == 0
  {
    if t > 0 {
      BitAbove(x / 2, t - 1);
    }
  }

  /** 2^31, the bound of JavaScript's non-negative 32-bit integers. */
  lemma Pow2Of31()
    ensures Pow2(31) == 0x8000_0000
  {
    assert Pow2(2) == 4;
    Pow2Add(2, 2);
    Pow2Add(4, 4);
    Pow2Add(8, 8);
    Pow2Add(16, 8);
    Pow2Add(24, 4);
    Pow2Add(28, 2);
    Pow2Add(30, 1);
  }
}
