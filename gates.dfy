/**
 * The gate matrices of src/lib/gates.ts. Entries are exact reals: the
 * constant 1/sqrt(2) of the Hadamard gate is a parameter `r`, and a
 * rotation angle theta is given by the pair (cos(theta/2), sin(theta/2)).
 */
module Gates {
  import opened Complex
  import opened Bits
  import opened Operations

  /** A rotation angle theta, as the cosine and sine of theta / 2 that the rotation gates use. */
  datatype Rot = Rot(cos: real, sin: real)

  predicate UnitRot(p: Rot) {
    p.cos * p.cos + p.sin * p.sin == 1.0
  }

  /** The rotation by -theta. */
  function Reverse(p: Rot): Rot {
    Rot(p.cos, -p.sin)
  }

  function Re(x: real): C {
    C(x, 0.0)
  }

  /** hGate (src/lib/gates.ts:5-14), with r standing for 1/sqrt(2). */
  function HGate(r: real): (g: Matrix)
    ensures Square(g, 2)
  {
    [[Re(r), Re(r)], [Re(r), Re(-r)]]
  }

  /** xGate (src/lib/gates.ts:16-25): the bit flip. */
  function XGate(): (g: Matrix)
    ensures Square(g, 2)
  {
    [[Zero, One], [One, Zero]]
  }

  /** zGate (src/lib/gates.ts:27-36): the phase flip. */
  function ZGate(): (g: Matrix)
    ensures Square(g, 2)
  {
    [[One, Zero], [Zero, Re(-1.0)]]
  }

  /** cnotGate (src/lib/gates.ts:38-63): flips the low bit of the pair when the high bit is set. */
  function CnotGate(): (g: Matrix)
    ensures Square(g, 4)
  {
    [[One, Zero, Zero, Zero],
     [Zero, One, Zero, Zero],
     [Zero, Zero, Zero, One],
     [Zero, Zero, One, Zero]]
  }

  /** rxGate (src/lib/gates.ts:66-79): [[cos, -i sin], [-i sin, cos]]. */
  function RxGate(p: Rot): (g: Matrix)
    ensures Square(g, 2)
  {
    [[Re(p.cos), C(0.0, -p.sin)], [C(0.0, -p.sin), Re(p.cos)]]
  }

  /** ryGate (src/lib/gates.ts:81-94): [[cos, -sin], [sin, cos]]. */
  function RyGate(p: Rot): (g: Matrix)
    ensures Square(g, 2)
  {
    [[Re(p.cos), Re(-p.sin)], [Re(p.sin), Re(p.cos)]]
  }

  /** rzGate (src/lib/gates.ts:96-111): diag(e^(-i theta/2), e^(i theta/2)). */
  function RzGate(p: Rot): (g: Matrix)
    ensures Square(g, 2)
  {
    [[C(p.cos, -p.sin), Zero], [Zero, C(p.cos, p.sin)]]
  }

  lemma TakeSecond(x: C, y: C)
    ensures Add(Mul(Zero, x), Mul(One, y)) == y
  {
    Units(x);
    Units(y);
  }

  lemma TakeFirst(x: C, y: C)
    ensures Add(Mul(One, x), Mul(Zero, y)) == x
  {
    Units(x);
    Units(y);
  }

  /** X on bit t swaps each amplitude with the one whose bit t differs. */
  lemma XFlips(v: Vector, t: nat, n: nat, k: nat)
    requires |v| == Pow2(n) && t < n && k < |v|
    ensures Flip(k, t) < |v|
    ensures SingleQubitUpdate(v, XGate(), t, n)[k] == v[Flip(k, t)]
  {
    WithBitBelow(k, t, 0, n);
    WithBitBelow(k, t, 1, n);
    var g := XGate();
    var x, y := v[WithBit(k, t, 0)], v[WithBit(k, t, 1)];
    assert SingleQubitUpdate(v, g, t, n)[k] == Add(Mul(g[Bit(k, t)][0], x), Mul(g[Bit(k, t)][1], y));
    if Bit(k, t) == 0 {
      assert Flip(k, t) == WithBit(k, t, 1);
      TakeSecond(x, y);
    } else {
      assert Flip(k, t) == WithBit(k, t, 0);
      TakeFirst(x, y);
    }
  }

  lemma NegOne(x: C)
    ensures Mul(Re(-1.0), x) == Neg(x)
  {
  }

  lemma NegateSecond(x: C, y: C)
    ensures Add(Mul(Zero, x), Mul(Re(-1.0), y)) == Neg(y)
  {
    Units(x);
    NegOne(y);
    Units(Neg(y));
  }

  /** Z on bit t negates the amplitudes whose bit t is set. */
  lemma ZPhase(v: Vector, t: nat, n: nat, k: nat)
    requires |v| == Pow2(n) && t < n && k < |v|
    ensures SingleQubitUpdate(v, ZGate(), t, n)[k] == if Bit(k, t) == 1 then Neg(v[k]) else v[k]
  {
    WithBitBelow(k, t, 0, n);
    WithBitBelow(k, t, 1, n);
    WithBitOwn(k, t);
    var x, y := v[WithBit(k, t, 0)], v[WithBit(k, t, 1)];
    if Bit(k, t) == 1 {
      NegateSecond(x, y);
    } else {
      TakeFirst(x, y);
    }
  }

  /** A 2 x 2 product is the identity when its four entries are. */
  lemma ProductIsIdentity(a: C, b: C, c: C, d: C, e: C, f: C, g: C, h: C)
    requires Add(Mul(a, e), Mul(b, g)) == One
    requires Add(Mul(a, f), Mul(b, h)) == Zero
    requires Add(Mul(c, e), Mul(d, g)) == Zero
    requires Add(Mul(c, f), Mul(d, h)) == One
    ensures MatMul2([[a, b], [c, d]], [[e, f], [g, h]]) == Identity(2)
  {
    MatMul2Entries([[a, b], [c, d]], [[e, f], [g, h]]);
    IdentityTwo();
  }

  lemma ReProduct(a: real, b: real)
    ensures Mul(Re(a), Re(b)) == Re(a * b)
  {
  }

  lemma ReSum(a: real, b: real)
    ensures Add(Re(a), Re(b)) == Re(a + b)
  {
  }

  lemma NegProducts(a: real, b: real)
    ensures a * -b == -(a * b) && (-a) * b == -(a * b) && (-a) * (-b) == a * b
  {
  }

  lemma NegRight(a: real, b: real)
    ensures Mul(Re(a), Re(-b)) == Re(-(a * b))
  {
  }

  lemma NegLeft(a: real, b: real)
    ensures Mul(Re(-a), Re(b)) == Re(-(a * b))
  {
  }

  lemma NegBoth(a: real, b: real)
    ensures Mul(Re(-a), Re(-b)) == Re(a * b)
  {
  }

  /** H * H is the identity when r * r = 1/2. */
  lemma HSquare(r: real)
    requires r * r == 0.5
    ensures MatMul2(HGate(r), HGate(r)) == Identity(2)
  {
    ReProduct(r, r);
    NegRight(r, r);
    NegLeft(r, r);
    NegBoth(r, r);
    ReSum(r * r, r * r);
    ReSum(r * r, -(r * r));
    ProductIsIdentity(Re(r), Re(r), Re(r), Re(-r), Re(r), Re(r), Re(r), Re(-r));
  }

  lemma SumOfUnits()
    ensures Add(Mul(Zero, Zero), Mul(One, One)) == One
    ensures Add(Mul(One, One), Mul(Zero, Zero)) == One
    ensures Add(Mul(Zero, One), Mul(One, Zero)) == Zero
    ensures Add(Mul(One, Zero), Mul(Zero, One)) == Zero
  {
    Units(Zero);
    Units(One);
  }

  lemma XSquare()
    ensures MatMul2(XGate(), XGate()) == Identity(2)
  {
    SumOfUnits();
    ProductIsIdentity(Zero, One, One, Zero, Zero, One, One, Zero);
  }

  lemma ZSquare()
    ensures MatMul2(ZGate(), ZGate()) == Identity(2)
  {
    TakeFirst(One, Zero);
    TakeFirst(Zero, Re(-1.0));
    NegateSecond(One, Zero);
    NegateSecond(Zero, Re(-1.0));
    ProductIsIdentity(One, Zero, Zero, Re(-1.0), One, Zero, Zero, Re(-1.0));
  }

  lemma ImProduct(a: real, b: real)
    ensures Mul(C(0.0, a), C(0.0, b)) == Re(-(a * b))
  {
  }

  lemma MixProducts(a: real, b: real)
    ensures Mul(Re(a), C(0.0, b)) == C(0.0, a * b) && Mul(C(0.0, b), Re(a)) == C(0.0, a * b)
  {
  }

  lemma ImSum(a: real, b: real)
    ensures Add(C(0.0, a), C(0.0, b)) == C(0.0, a + b)
  {
  }

  /** RX(-theta) * RX(theta) is the identity. */
  lemma RxReverse(p: Rot)
    requires UnitRot(p)
    ensures MatMul2(RxGate(Reverse(p)), RxGate(p)) == Identity(2)
  {
    var c, s := p.cos, p.sin;
    assert RxGate(Reverse(p)) == [[Re(c), C(0.0, s)], [C(0.0, s), Re(c)]];
    ReProduct(c, c);
    ImProduct(s, -s);
    MixProducts(c, -s);
    MixProducts(c, s);
    NegProducts(s, s);
    NegProducts(c, s);
    ReSum(c * c, s * s);
    ReSum(s * s, c * c);
    ImSum(-(c * s), c * s);
    ImSum(c * s, -(c * s));
    ProductIsIdentity(Re(c), C(0.0, s), C(0.0, s), Re(c), Re(c), C(0.0, -s), C(0.0, -s), Re(c));
  }

  /** RY(-theta) * RY(theta) is the identity. */
  lemma RyReverse(p: Rot)
    requires UnitRot(p)
    ensures MatMul2(RyGate(Reverse(p)), RyGate(p)) == Identity(2)
  {
    var c, s := p.cos, p.sin;
    assert RyGate(Reverse(p)) == [[Re(c), Re(s)], [Re(-s), Re(c)]];
    ReProduct(c, c);
    ReProduct(s, s);
    ReProduct(c, -s);
    ReProduct(s, c);
    ReProduct(-s, c);
    ReProduct(c, s);
    ReProduct(-s, -s);
    NegProducts(s, s);
    NegProducts(c, s);
    NegProducts(s, c);
    ReSum(c * c, s * s);
    ReSum(s * s, c * c);
    ReSum(-(c * s), s * c);
    ReSum(-(s * c), c * s);
    ProductIsIdentity(Re(c), Re(s), Re(-s), Re(c), Re(c), Re(-s), Re(s), Re(c));
  }

  lemma ConjugateProduct(c: real, s: real)
    ensures Mul(C(c, s), C(c, -s)) == Re(c * c + s * s)
  {
  }

  lemma ConjugateSwapped(c: real, s: real)
    ensures Mul(C(c, -s), C(c, s)) == Re(c * c + s * s)
  {
  }

  lemma RzFirst(c: real, s: real)
    requires c * c + s * s == 1.0
    ensures Add(Mul(C(c, s), C(c, -s)), Mul(Zero, Zero)) == One
  {
    ConjugateProduct(c, s);
    Units(Zero);
    Units(One);
  }

  lemma RzLast(c: real, s: real)
    requires c * c + s * s == 1.0
    ensures Add(Mul(Zero, Zero), Mul(C(c, -s), C(c, s))) == One
  {
    ConjugateSwapped(c, s);
    Units(Zero);
    Units(One);
  }

  lemma CancelRight(x: C, y: C)
    ensures Add(Mul(x, Zero), Mul(Zero, y)) == Zero
  {
    Units(x);
    Units(y);
    Units(Zero);
  }

  lemma CancelLeft(x: C, y: C)
    ensures Add(Mul(Zero, x), Mul(y, Zero)) == Zero
  {
    Units(x);
    Units(y);
    Units(Zero);
  }

  /** RZ(-theta) * RZ(theta) is the identity. */
  lemma RzReverse(p: Rot)
    requires UnitRot(p)
    ensures MatMul2(RzGate(Reverse(p)), RzGate(p)) == Identity(2)
  {
    var c, s := p.cos, p.sin;
    assert RzGate(Reverse(p)) == [[C(c, s), Zero], [Zero, C(c, -s)]];
    RzFirst(c, s);
    CancelRight(C(c, s), C(c, s));
    CancelLeft(C(c, -s), C(c, -s));
    RzLast(c, s);
    ProductIsIdentity(C(c, s), Zero, Zero, C(c, -s), C(c, -s), Zero, Zero, C(c, s));
  }

  /** Applying a gate g and then a gate h with h * g = I restores the state. */
  lemma UndoSingle(v: Vector, g: Matrix, h: Matrix, t: int, n: nat)
    requires Square(g, 2) && Square(h, 2) && |v| == Pow2(n) && MatMul2(h, g) == Identity(2)
    ensures SingleQubitUpdate(SingleQubitUpdate(v, g, t, n), h, t, n) == v
  {
    SingleCompose(v, g, h, t, n);
    SingleIdentity(v, t, n);
  }

  /** Hadamard, X and Z are their own inverses; each rotation is undone by the opposite rotation. */
  lemma GatesUndo(v: Vector, r: real, p: Rot, t: int, n: nat)
    requires |v| == Pow2(n) && r * r == 0.5 && UnitRot(p)
    ensures SingleQubitUpdate(SingleQubitUpdate(v, HGate(r), t, n), HGate(r), t, n) == v
    ensures SingleQubitUpdate(SingleQubitUpdate(v, XGate(), t, n), XGate(), t, n) == v
    ensures SingleQubitUpdate(SingleQubitUpdate(v, ZGate(), t, n), ZGate(), t, n) == v
    ensures SingleQubitUpdate(SingleQubitUpdate(v, RxGate(p), t, n), RxGate(Reverse(p)), t, n) == v
    ensures SingleQubitUpdate(SingleQubitUpdate(v, RyGate(p), t, n), RyGate(Reverse(p)), t, n) == v
    ensures SingleQubitUpdate(SingleQubitUpdate(v, RzGate(p), t, n), RzGate(Reverse(p)), t, n) == v
  {
    HSquare(r);
    XSquare();
    ZSquare();
    RxReverse(p);
    RyReverse(p);
    RzReverse(p);
    UndoSingle(v, HGate(r), HGate(r), t, n);
    UndoSingle(v, XGate(), XGate(), t, n);
    UndoSingle(v, ZGate(), ZGate(), t, n);
    UndoSingle(v, RxGate(p), RxGate(Reverse(p)), t, n);
    UndoSingle(v, RyGate(p), RyGate(Reverse(p)), t, n);
    UndoSingle(v, RzGate(p), RzGate(Reverse(p)), t, n);
  }

  /** CNOT on the pair (l+1, l): amplitude k is taken from k with bit l flipped when bit l+1 of k is set. */
  lemma CnotFlips(v: Vector, l: nat, n: nat, k: nat)
    requires |v| == Pow2(n) && l + 1 < n && k < |v|
    ensures Flip(k, l) < |v|
    ensures TwoQubitUpdate(v, CnotGate(), l, n)[k] == if Bit(k, l + 1) == 1 then v[Flip(k, l)] else v[k]
  {
    WithBitBelow(k, l, 1 - Bit(k, l), n);
    WithPairBelow(k, l, 0, n);
    WithPairBelow(k, l, 1, n);
    WithPairBelow(k, l, 2, n);
    WithPairBelow(k, l, 3, n);
    WithBitOwn(k, l + 1);
    WithBitOwn(k, l);
    var p := PairOf(k, l);
    var g := CnotGate();
    var a0, a1, a2, a3 := v[WithPair(k, l, 0)], v[WithPair(k, l, 1)], v[WithPair(k, l, 2)], v[WithPair(k, l, 3)];
    Units(a0);
    Units(a1);
    Units(a2);
    Units(a3);
    assert WithPair(k, l, 2 * Bit(k, l + 1) + Bit(k, l)) == k;
    assert WithPair(k, l, 2 * Bit(k, l + 1) + (1 - Bit(k, l))) == Flip(k, l);
  }

  /** CNOT is its own inverse. */
  lemma CnotTwice(v: Vector, l: nat, n: nat)
    requires |v| == Pow2(n) && l + 1 < n
    ensures TwoQubitUpdate(TwoQubitUpdate(v, CnotGate(), l, n), CnotGate(), l, n) == v
  {
    var w := TwoQubitUpdate(v, CnotGate(), l, n);
    forall k | 0 <= k < |v|
      ensures TwoQubitUpdate(w, CnotGate(), l, n)[k] == v[k]
    {
      CnotFlips(w, l, n, k);
      CnotFlips(v, l, n, k);
      CnotFlips(v, l, n, Flip(k, l));
      BitOfWithBit(k, l, 1 - Bit(k, l), l + 1);
      BitOfWithBit(k, l, 1 - Bit(k, l), l);
      WithBitTwice(k, l, 1 - Bit(k, l), Bit(k, l));
      WithBitOwn(k, l);
    }
  }
}
