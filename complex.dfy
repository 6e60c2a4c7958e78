/**
 * Complex numbers as pairs (real part, imaginary part), with exact real
 * components in place of IEEE doubles (src/lib/operations.ts:46-76).
 */
module Complex {

  datatype C = C(re: real, im: real)

  const Zero: C := C(0.0, 0.0)
  const One: C := C(1.0, 0.0)

  /** Component-wise sum, as addComplex computes it. */
  function Add(x: C, y: C): C {
    C(x.re + y.re, x.im + y.im)
  }

  /** The product (ac - bd, ad + bc) of (a, b) and (c, d), as mulComplex computes it. */
  function Mul(x: C, y: C): C {
    C(x.re * y.re - x.im * y.im, x.re * y.im + x.im * y.re)
  }

  function Neg(x: C): C {
    C(-x.re, -x.im)
  }

  /** The squared magnitude re^2 + im^2, the probability of an amplitude. */
  function Norm2(x: C): (p: real)
    ensures p >= 0.0
  {
    x.re * x.re + x.im * x.im
  }

  /** The identities the rest of the model relies on: Zero and One are the units of Add and Mul. */
  lemma Units(x: C)
    ensures Add(Zero, x) == x && Add(x, Zero) == x
    ensures Mul(One, x) == x && Mul(x, One) == x
    ensures Mul(Zero, x) == Zero && Mul(x, Zero) == Zero
  {
  }

  /** Mul distributes over Add. */
  lemma MulDistrib(x: C, y: C, z: C)
    ensures Mul(x, Add(y, z)) == Add(Mul(x, y), Mul(x, z))
  {
    assert x.re * (y.re + z.re) == x.re * y.re + x.re * z.re;
    assert x.im * (y.im + z.im) == x.im * y.im + x.im * z.im;
    assert x.re * (y.im + z.im) == x.re * y.im + x.re * z.im;
    assert x.im * (y.re + z.re) == x.im * y.re + x.im * z.re;
  }

  lemma MulAssoc(a: C, b: C, c: C)
    ensures Mul(a, Mul(b, c)) == Mul(Mul(a, b), c)
  {
  }

  lemma MulAddLeft(a: C, b: C, c: C)
    ensures Mul(Add(a, b), c) == Add(Mul(a, c), Mul(b, c))
  {
  }

  /** a(px + qy) + b(rx + sy) = (ap + br)x + (aq + bs)y: the step that multiplies two 2 x 2 matrices. */
  lemma Regroup(a: C, b: C, p: C, q: C, r: C, s: C, x: C, y: C)
    ensures Add(Mul(a, Add(Mul(p, x), Mul(q, y))), Mul(b, Add(Mul(r, x), Mul(s, y))))
         == Add(Mul(Add(Mul(a, p), Mul(b, r)), x), Mul(Add(Mul(a, q), Mul(b, s)), y))
  {
    MulDistrib(a, Mul(p, x), Mul(q, y));
    MulDistrib(b, Mul(r, x), Mul(s, y));
    MulAssoc(a, p, x);
    MulAssoc(a, q, y);
    MulAssoc(b, r, x);
    MulAssoc(b, s, y);
    MulAddLeft(Mul(a, p), Mul(b, r), x);
    MulAddLeft(Mul(a, q), Mul(b, s), y);
    var A, B, P, Q := Mul(Mul(a, p), x), Mul(Mul(a, q), y), Mul(Mul(b, r), x), Mul(Mul(b, s), y);
    assert Add(Add(A, B), Add(P, Q)) == Add(Add(A, P), Add(B, Q));
  }
}
