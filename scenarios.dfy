/**
 * The circuits of src/lib/tests/simulation_test.ts run through the model, and
 * the two opposite bit orders of the simulator side by side.
 */
module Scenarios {
  import opened Common
  import opened Complex
  import opened Bits
  import opened Operations
  import opened Gates
  import opened Simulation

  function Single(kind: string, target: int, params: Option<Rot>): RawGate {
    Gate(Some(kind), Some([target]), params)
  }

  lemma StartOne()
    ensures InitialStateSpec(1) == Returned([One, Zero])
  {
    assert Pow2(1) == 2;
    var v := InitialStateSpec(1).value;
    assert |v| == 2 && v[0] == One && v[1] == Zero;
    assert v == [One, Zero];
  }

  lemma StartTwo()
    ensures InitialStateSpec(2) == Returned([One, Zero, Zero, Zero])
  {
    assert Pow2(1) == 2;
    assert Pow2(2) == 4;
    var v := InitialStateSpec(2).value;
    assert |v| == 4 && v[0] == One && v[1] == Zero && v[2] == Zero && v[3] == Zero;
    assert v == [One, Zero, Zero, Zero];
  }

  lemma TakeLeft(a: C, b: C)
    ensures Add(Mul(a, One), Mul(b, Zero)) == a
  {
    Units(a);
    Units(b);
  }

  lemma TakeRight(a: C, b: C)
    ensures Add(Mul(a, Zero), Mul(b, One)) == b
  {
    Units(a);
    Units(b);
  }

  lemma TakeNone(a: C, b: C)
    ensures Add(Mul(a, Zero), Mul(b, Zero)) == Zero
  {
    Units(a);
    Units(b);
    Units(Zero);
  }

  /** A gate applied to |0> of one qubit gives its first column. */
  lemma FirstColumn(g: Matrix)
    requires Square(g, 2)
    ensures SingleQubitUpdate([One, Zero], g, 0, 1) == [g[0][0], g[1][0]]
  {
    TakeLeft(g[0][0], g[0][1]);
    TakeLeft(g[1][0], g[1][1]);
  }

  /** A gate applied to |1> of one qubit gives its second column. */
  lemma SecondColumn(g: Matrix)
    requires Square(g, 2)
    ensures SingleQubitUpdate([Zero, One], g, 0, 1) == [g[0][1], g[1][1]]
  {
    TakeRight(g[0][0], g[0][1]);
    TakeRight(g[1][0], g[1][1]);
  }

  lemma OneStep(s: Vector, g: RawGate, n: nat, r: real, d: Rot)
    ensures RunSteps(Some(s), [Some([g])], n, r, d) == GateStep(s, g, n, r, d)
  {
    assert [Some([g])][..0] == [];
    assert RunSteps(Some(s), [], n, r, d) == Some(s);
    assert [g][..0] == [];
    assert RunGates(Some(s), [], n, r, d) == Some(s);
    assert RunGates(Some(s), [g], n, r, d) == GateStep(s, g, n, r, d);
  }

  lemma TwoSteps(s: Vector, g1: RawGate, g2: RawGate, n: nat, r: real, d: Rot)
    requires GateStep(s, g1, n, r, d).Some?
    ensures RunSteps(Some(s), [Some([g1]), Some([g2])], n, r, d) == GateStep(GateStep(s, g1, n, r, d).value, g2, n, r, d)
  {
    var steps := [Some([g1]), Some([g2])];
    assert steps[..1] == [Some([g1])];
    OneStep(s, g1, n, r, d);
    var w := GateStep(s, g1, n, r, d);
    assert [g2][..0] == [];
    assert RunGates(w, [], n, r, d) == w;
    assert RunGates(w, [g2], n, r, d) == GateStep(w.value, g2, n, r, d);
  }

  /** A one-qubit circuit of one single-gate step. */
  lemma OneGateRun(g: RawGate, w: Vector, r: real, d: Rot)
    requires GateStep([One, Zero], g, 1, r, d) == Some(w)
    ensures RunSpec(Circuit(Some([Some([g])])), 1, r, d) == Final(w)
  {
    StartOne();
    OneStep([One, Zero], g, 1, r, d);
  }

  /** A one-qubit circuit of two single-gate steps. */
  lemma TwoGateRun(g1: RawGate, g2: RawGate, w: Vector, u: Vector, r: real, d: Rot)
    requires GateStep([One, Zero], g1, 1, r, d) == Some(w)
    requires GateStep(w, g2, 1, r, d) == Some(u)
    ensures RunSpec(Circuit(Some([Some([g1]), Some([g2])])), 1, r, d) == Final(u)
  {
    StartOne();
    TwoSteps([One, Zero], g1, g2, 1, r, d);
  }

  /** A single-qubit gate acting on a one-qubit state. */
  lemma OnOneQubit(s: Vector, g: RawGate, m: Matrix, r: real, d: Rot)
    requires |s| == 2 && !Malformed(g) && g.targets.value[0] == 0
    requires SingleGateOf(g.kind.value, g, r, d) == Some(m)
    ensures GateStep(s, g, 1, r, d) == Some(SingleQubitUpdate(s, m, 0, 1))
  {
    assert Pow2(1) == 2;
    GateEffects(s, g, 1, r, d);
  }

  /** H on one qubit: [1/sqrt 2, 1/sqrt 2]. */
  lemma HadamardTest(r: real, d: Rot)
    ensures RunSpec(Circuit(Some([Some([Single("H", 0, None)])])), 1, r, d) == Final([Re(r), Re(r)])
  {
    OnOneQubit([One, Zero], Single("H", 0, None), HGate(r), r, d);
    FirstColumn(HGate(r));
    OneGateRun(Single("H", 0, None), [Re(r), Re(r)], r, d);
  }

  /** X on one qubit: [0, 1]. */
  lemma XTest(r: real, d: Rot)
    ensures RunSpec(Circuit(Some([Some([Single("X", 0, None)])])), 1, r, d) == Final([Zero, One])
  {
    OnOneQubit([One, Zero], Single("X", 0, None), XGate(), r, d);
    FirstColumn(XGate());
    OneGateRun(Single("X", 0, None), [Zero, One], r, d);
  }

  /** X and then Z, in two steps: [0, -1]. */
  lemma XThenZTest(r: real, d: Rot)
    ensures RunSpec(Circuit(Some([Some([Single("X", 0, None)]), Some([Single("Z", 0, None)])])), 1, r, d)
         == Final([Zero, Re(-1.0)])
  {
    OnOneQubit([One, Zero], Single("X", 0, None), XGate(), r, d);
    FirstColumn(XGate());
    OnOneQubit([Zero, One], Single("Z", 0, None), ZGate(), r, d);
    SecondColumn(ZGate());
    TwoGateRun(Single("X", 0, None), Single("Z", 0, None), [Zero, One], [Zero, Re(-1.0)], r, d);
  }

  /** RX(pi) on one qubit, with cos(pi/2) = 0 and sin(pi/2) = 1: [0, -i]. */
  lemma RxTest(r: real, d: Rot)
    ensures RunSpec(Circuit(Some([Some([Single("RX", 0, Some(Rot(0.0, 1.0)))])])), 1, r, d) == Final([Zero, C(0.0, -1.0)])
  {
    var g := Single("RX", 0, Some(Rot(0.0, 1.0)));
    OnOneQubit([One, Zero], g, RxGate(Rot(0.0, 1.0)), r, d);
    FirstColumn(RxGate(Rot(0.0, 1.0)));
    OneGateRun(g, [Zero, C(0.0, -1.0)], r, d);
  }

  /** RY(pi) on one qubit: [0, 1]. */
  lemma RyTest(r: real, d: Rot)
    ensures RunSpec(Circuit(Some([Some([Single("RY", 0, Some(Rot(0.0, 1.0)))])])), 1, r, d) == Final([Zero, One])
  {
    var g := Single("RY", 0, Some(Rot(0.0, 1.0)));
    OnOneQubit([One, Zero], g, RyGate(Rot(0.0, 1.0)), r, d);
    FirstColumn(RyGate(Rot(0.0, 1.0)));
    OneGateRun(g, [Zero, One], r, d);
  }

  /**
   * An out-of-range index after the first target does not skip the gate:
   * H with targets [0, 5] on one qubit still gives [1/sqrt 2, 1/sqrt 2].
   */
  lemma BadTargetStillApplied(r: real, d: Rot)
    ensures RunSpec(Circuit(Some([Some([Gate(Some("H"), Some([0, 5]), None)])])), 1, r, d) == Final([Re(r), Re(r)])
  {
    var g := Single("H", 0, None);
    var g5 := Gate(Some("H"), Some([0, 5]), None);
    ExtraTargetsIgnored([One, Zero], g, [5], 1, r, d);
    assert [0] + [5] == [0, 5];
    assert g.(targets := Some(g.targets.value + [5])) == g5;
    OnOneQubit([One, Zero], g, HGate(r), r, d);
    FirstColumn(HGate(r));
    OneGateRun(g5, [Re(r), Re(r)], r, d);
  }

  /** H on qubit 1 of |00>: (|00> + |10>) / sqrt 2 in index order. */
  lemma HadamardOnHigh(r: real)
    ensures SingleQubitUpdate([One, Zero, Zero, Zero], HGate(r), 1, 2) == [Re(r), Zero, Re(r), Zero]
  {
    assert Pow2(2) == 4;
    var h := HGate(r);
    var w := SingleQubitUpdate([One, Zero, Zero, Zero], h, 1, 2);
    TakeLeft(h[0][0], h[0][1]);
    TakeNone(h[0][0], h[0][1]);
    TakeLeft(h[1][0], h[1][1]);
    TakeNone(h[1][0], h[1][1]);
    assert w[0] == Re(r);
    assert w[1] == Zero;
    assert w[2] == Re(r);
    assert w[3] == Zero;
  }

  /** One more step of one gate at the end of a circuit. */
  lemma StepAfter(s: Vector, steps: seq<Step>, g: RawGate, n: nat, r: real, d: Rot)
    requires RunSteps(Some(s), steps, n, r, d).Some?
    ensures RunSteps(Some(s), steps + [Some([g])], n, r, d) == GateStep(RunSteps(Some(s), steps, n, r, d).value, g, n, r, d)
  {
    var prev := RunSteps(Some(s), steps, n, r, d);
    assert (steps + [Some([g])])[..|steps|] == steps;
    assert [g][..0] == [];
    assert RunGates(prev, [], n, r, d) == prev;
    assert RunGates(prev, [g], n, r, d) == GateStep(prev.value, g, n, r, d);
  }

  lemma FourEntries(v: Vector, x0: C, x1: C, x2: C, x3: C)
    requires |v| == 4 && v[0] == x0 && v[1] == x1 && v[2] == x2 && v[3] == x3
    ensures v == [x0, x1, x2, x3]
  {
  }

  /** CNOT with targets [1, 0] on a|00> + b|10>, in index order: a|00> + b|11>. */
  lemma BellCnot(a: C, b: C, cx: RawGate, r: real, d: Rot)
    requires !Malformed(cx) && cx.kind.value == "CNOT" && |cx.targets.value| >= 2
    requires cx.targets.value[0] == 1 && cx.targets.value[1] == 0
    ensures GateStep([a, Zero, b, Zero], cx, 2, r, d) == Some([a, Zero, Zero, b])
  {
    var s1 := [a, Zero, b, Zero];
    assert Pow2(2) == 4;
    assert Max(1, 0) == 1 && Min(1, 0) == 0;
    CnotEntry(s1, cx, 2, r, d, 1, 0, 0);
    CnotEntry(s1, cx, 2, r, d, 1, 0, 1);
    CnotEntry(s1, cx, 2, r, d, 1, 0, 2);
    CnotEntry(s1, cx, 2, r, d, 1, 0, 3);
    var s2 := GateStep(s1, cx, 2, r, d).value;
    assert Flip(2, 0) == 3 && Flip(3, 0) == 2;
    assert Bit(0, 1) == 0 && Bit(1, 1) == 0 && Bit(2, 1) == 1 && Bit(3, 1) == 1;
    assert s2[0] == s1[0];
    assert s2[1] == s1[1];
    assert s2[2] == s1[3];
    assert s2[3] == s1[2];
    FourEntries(s2, a, Zero, Zero, b);
  }

  /** Two one-gate steps from the initial state of n qubits. */
  lemma TwoStepRun(n: nat, g1: RawGate, g2: RawGate, s0: Vector, w: Vector, u: Vector, r: real, d: Rot)
    requires InitialStateSpec(n) == Returned(s0)
    requires GateStep(s0, g1, n, r, d) == Some(w) && GateStep(w, g2, n, r, d) == Some(u)
    ensures RunSpec(Circuit(Some([Some([g1]), Some([g2])])), n, r, d) == Final(u)
  {
    TwoSteps(s0, g1, g2, n, r, d);
  }

  /** Three one-gate steps from the initial state of n qubits. */
  lemma ThreeStepRun(n: nat, g1: RawGate, g2: RawGate, g3: RawGate, s0: Vector, w: Vector, u: Vector, z: Vector, r: real, d: Rot)
    requires InitialStateSpec(n) == Returned(s0)
    requires GateStep(s0, g1, n, r, d) == Some(w) && GateStep(w, g2, n, r, d) == Some(u)
    requires GateStep(u, g3, n, r, d) == Some(z)
    ensures RunSpec(Circuit(Some([Some([g1]), Some([g2]), Some([g3])])), n, r, d) == Final(z)
  {
    TwoSteps(s0, g1, g2, n, r, d);
    StepAfter(s0, [Some([g1]), Some([g2])], g3, n, r, d);
    assert [Some([g1]), Some([g2])] + [Some([g3])] == [Some([g1]), Some([g2]), Some([g3])];
  }

  /** H on qubit 1 and then CNOT with targets [1, 0] on two qubits: the Bell state [r, 0, 0, r]. */
  lemma BellTest(r: real, d: Rot)
    ensures RunSpec(Circuit(Some([Some([Single("H", 1, None)]), Some([Gate(Some("CNOT"), Some([1, 0]), None)])])), 2, r, d)
         == Final([Re(r), Zero, Zero, Re(r)])
  {
    var h := Single("H", 1, None);
    StartTwo();
    assert Pow2(2) == 4;
    GateEffects([One, Zero, Zero, Zero], h, 2, r, d);
    HadamardOnHigh(r);
    BellCnot(Re(r), Re(r), Gate(Some("CNOT"), Some([1, 0]), None), r, d);
    TwoStepRun(2, h, Gate(Some("CNOT"), Some([1, 0]), None), [One, Zero, Zero, Zero],
      [Re(r), Zero, Re(r), Zero], [Re(r), Zero, Zero, Re(r)], r, d);
  }

  // The bit order of the single-qubit gates against that of applyCCNOT.

  /** X on qubit t moves the basis state |i> to |i with bit t flipped>. */
  lemma XOnBasis(i: nat, t: nat, n: nat)
    requires i < Pow2(n) && t < n
    ensures Flip(i, t) < Pow2(n)
    ensures SingleQubitUpdate(Basis(Pow2(n), i), XGate(), t, n) == Basis(Pow2(n), Flip(i, t))
  {
    var v := Basis(Pow2(n), i);
    WithBitBelow(i, t, 1 - Bit(i, t), n);
    var w := SingleQubitUpdate(v, XGate(), t, n);
    forall k | 0 <= k < |v|
      ensures w[k] == Basis(Pow2(n), Flip(i, t))[k]
    {
      XFlips(v, t, n, k);
      FlipTwice(k, t);
      FlipTwice(i, t);
    }
  }

  lemma StartThree()
    ensures InitialStateSpec(3) == Returned(Basis(8, 0))
  {
    assert Pow2(3) == 8;
    assert InitialStateSpec(3).value == Basis(8, 0);
  }

  /** X on qubit t of |i> as a gate of the circuit. */
  lemma XStep(i: nat, t: nat, n: nat, r: real, d: Rot)
    requires i < Pow2(n) && t < n
    ensures Flip(i, t) < Pow2(n)
    ensures GateStep(Basis(Pow2(n), i), Single("X", t, None), n, r, d) == Some(Basis(Pow2(n), Flip(i, t)))
  {
    GateEffects(Basis(Pow2(n), i), Single("X", t, None), n, r, d);
    XOnBasis(i, t, n);
  }

  /** Among three-bit indices, bits 2 and 1 are both set exactly at 6 and 7. */
  lemma HighPair(k: nat)
    requires k < 8
    ensures (Bit(k, 2) == 1 && Bit(k, 1) == 1) <==> (k == 6 || k == 7)
  {
    if k < 4 {
      BitAbove(k, 2);
    } else if k < 6 {
      assert Bit(k, 1) == Bit(k / 2, 0);
    }
  }

  /**
   * applyCCNOT with controls 0 and 1 and target 2 on three qubits swaps only
   * the amplitudes at indices 6 and 7.
   */
  lemma CcnotOnThree(s: Vector)
    requires |s| == 8
    ensures CcnotSpec(s, 0, 1, 2, 3) == Some(s[6 := s[7]][7 := s[6]])
  {
    ThreeIsToffoli(s);
    ThreeToffoliSwaps(s);
  }

  /** On three qubits, qubits 0, 1 and 2 are bits 2, 1 and 0, and no swap leaves the state. */
  lemma ThreeIsToffoli(s: Vector)
    requires |s| == 8
    ensures !Overflows(8, 2, 1, 0, 8)
    ensures CcnotSpec(s, 0, 1, 2, 3) == Some(Toffoli(s, 2, 1, 0))
  {
    assert Pow2(3) == 8;
    StateFits(8, 2, 1, 0, 3);
    assert MaskBit(3, 0) == 2 && MaskBit(3, 1) == 1 && MaskBit(3, 2) == 0;
    CcnotMeaning(s, 0, 1, 2, 3);
  }

  /** Toffoli with controls at bits 2 and 1 and the target at bit 0 swaps amplitudes 6 and 7. */
  lemma ThreeToffoliSwaps(s: Vector)
    requires |s| == 8
    ensures !Overflows(8, 2, 1, 0, 8)
    ensures Toffoli(s, 2, 1, 0) == s[6 := s[7]][7 := s[6]]
  {
    assert Pow2(3) == 8;
    StateFits(8, 2, 1, 0, 3);
    ToffoliEntries(s, 2, 1, 0);
    ThreeSwap(s, Toffoli(s, 2, 1, 0));
  }

  /** With the controls at bits 2 and 1 and the target at bit 0, only amplitudes 6 and 7 move, and they swap. */
  lemma ThreeSwap(s: Vector, w: Vector)
    requires |s| == 8 && |w| == 8
    requires forall k :: 0 <= k < 8 ==> w[k] == if Bit(k, 2) == 1 && Bit(k, 1) == 1 then s[Flip(k, 0)] else s[k]
    ensures w == s[6 := s[7]][7 := s[6]]
  {
    forall k | 0 <= k < 8
      ensures w[k] == s[6 := s[7]][7 := s[6]][k]
    {
      ThreeEntry(s, w[k], k);
    }
  }

  /** One amplitude of ThreeSwap. */
  lemma ThreeEntry(s: Vector, x: C, k: nat)
    requires |s| == 8 && k < 8
    requires x == if Bit(k, 2) == 1 && Bit(k, 1) == 1 then s[Flip(k, 0)] else s[k]
    ensures x == s[6 := s[7]][7 := s[6]][k]
  {
    HighPair(k);
    if k == 6 {
      assert Flip(6, 0) == 7;
    } else if k == 7 {
      assert Flip(7, 0) == 6;
    } else {
      assert x == s[k];
    }
  }

  /** |3> is left where it is. */
  lemma CcnotKeepsThree()
    ensures CcnotSpec(Basis(8, 3), 0, 1, 2, 3) == Some(Basis(8, 3))
  {
    var v := Basis(8, 3);
    CcnotOnThree(v);
    assert v[6 := v[7]][7 := v[6]] == v;
  }

  /**
   * X on qubit 0, X on qubit 1 and then CCNOT with controls 0 and 1 and
   * target 2, on three qubits. The X gates set index bits 0 and 1, reaching
   * |3>; applyCCNOT reads qubit q at bit 2-q, sees controls 0 and 1 at bits 2
   * and 1, finds bit 2 clear, and the state stays |3>.
   */
  lemma CcnotMissesXs(r: real, d: Rot)
    ensures Bit(3, 0) == 1 && Bit(3, 1) == 1
    ensures RunSpec(Circuit(Some([Some([Single("X", 0, None)]), Some([Single("X", 1, None)]),
                                  Some([Gate(Some("CCNOT"), Some([0, 1, 2]), None)])])), 3, r, d)
         == Final(Basis(8, 3))
  {
    var ccx := Gate(Some("CCNOT"), Some([0, 1, 2]), None);
    assert Pow2(3) == 8;
    StartThree();
    XStep(0, 0, 3, r, d);
    assert Flip(0, 0) == 1;
    XStep(1, 1, 3, r, d);
    assert Flip(1, 1) == 3;
    GateEffects(Basis(8, 3), ccx, 3, r, d);
    CcnotKeepsThree();
    ThreeStepRun(3, Single("X", 0, None), Single("X", 1, None), ccx, Basis(8, 0), Basis(8, 1), Basis(8, 3), Basis(8, 3), r, d);
  }

  /** The state applyCCNOT does flip: index bits 2 and 1 set, so |6> becomes |7>. */
  lemma CcnotFlipsHighBits()
    ensures CcnotSpec(Basis(8, 6), 0, 1, 2, 3) == Some(Basis(8, 7))
  {
    var v := Basis(8, 6);
    CcnotOnThree(v);
    assert v[6 := v[7]][7 := v[6]] == Basis(8, 7);
  }
}
