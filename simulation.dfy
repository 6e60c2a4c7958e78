/**
 * The circuit driver of src/lib/simulation.ts: the Toffoli gate applyCCNOT,
 * initialState, and runCircuit's walk over time-steps with its skip,
 * dispatch and catch rules.
 */
module Simulation {
  import opened Common
  import opened Complex
  import opened Bits
  import opened Operations
  import opened Gates

  // ---------------------------------------------------------------------------
  // applyCCNOT (src/lib/simulation.ts:5-26)
  // ---------------------------------------------------------------------------

  /**
   * 2^31. Below it JavaScript's 32-bit `&` and `^` on an index agree with the
   * bit arithmetic of module Bits.
   */
  const Int32Range: nat := 0x8000_0000

  /** The bit that `1 << (numQubits - 1 - q)` selects: JavaScript keeps only the low five bits of the shift count. */
  function MaskBit(numQubits: int, q: int): (p: nat)
    ensures p < 32
  {
    (numQubits - 1 - q) % 32
  }

  /**
   * `i ^ (1 << p)` for 0 <= i < 2^31: bit p flipped, except that `1 << 31`
   * is the sign bit, so the 32-bit result is negative.
   */
  function XorMask(i: nat, p: nat): int {
    if p < 31 then Flip(i, p) else i - Int32Range
  }

  /** Both control masks hit index i: `(i & c1Mask) !== 0 && (i & c2Mask) !== 0` for i < 2^31. */
  predicate Controlled(i: nat, p1: nat, p2: nat) {
    Bit(i, p1) == 1 && Bit(i, p2) == 1
  }

  function Swap(w: Vector, i: nat, j: nat): (u: Vector)
    requires i < |w| && j < |w|
    ensures |u| == |w|
  {
    w[i := w[j]][j := w[i]]
  }

  /**
   * The copy after the loop has visited indices 0 .. i-1, or None once a swap
   * has written past the end of the array (the array then grows with holes,
   * which this model does not follow).
   */
  function CcnotSteps(s: Vector, p1: nat, p2: nat, pt: nat, i: nat): (o: Option<Vector>)
    requires i <= |s|
    ensures o.Some? ==> |o.value| == |s|
  {
    if i == 0 then Some(s)
    else
      var prev := CcnotSteps(s, p1, p2, pt, i - 1);
      var k := i - 1;
      if prev.None? || !(Controlled(k, p1, p2) && k < XorMask(k, pt)) then prev
      else if XorMask(k, pt) >= |s| then None
      else Some(Swap(prev.value, k, XorMask(k, pt)))
  }

  /** Once a swap has written past the end, the model has no further result. */
  lemma {:induction false} StepsStayNone(s: Vector, p1: nat, p2: nat, pt: nat, i: nat, m: nat)
    requires i <= m <= |s| && CcnotSteps(s, p1, p2, pt, i).None?
    ensures CcnotSteps(s, p1, p2, pt, m).None?
  {
    if m > i {
      StepsStayNone(s, p1, p2, pt, i, m - 1);
    }
  }

  /** applyCCNOT(state, c1, c2, t, numQubits); None where the model stops following JavaScript. */
  function CcnotSpec(state: Vector, c1: int, c2: int, t: int, numQubits: int): Option<Vector> {
    if |state| > Int32Range then None
    else CcnotSteps(state, MaskBit(numQubits, c1), MaskBit(numQubits, c2), MaskBit(numQubits, t), |state|)
  }

  /** The copy swaps newState[i] and newState[i ^ tMask] for each i < i ^ tMask whose control bits are set. */
  method ApplyCcnot(state: Vector, c1: int, c2: int, t: int, numQubits: int) returns (result: Option<Vector>)
    ensures result == CcnotSpec(state, c1, c2, t, numQubits)
  {
    if |state| > Int32Range {
      return None;
    }
    var p1, p2, pt := MaskBit(numQubits, c1), MaskBit(numQubits, c2), MaskBit(numQubits, t);
    var newState := new C[|state|](k requires 0 <= k < |state| => state[k]);
    assert newState[..] == state;
    for i := 0 to |state|
      invariant CcnotSteps(state, p1, p2, pt, i) == Some(newState[..])
    {
      if Bit(i, p1) == 1 && Bit(i, p2) == 1 {
        var j := XorMask(i, pt);
        if i < j {
          if j >= |state| {
            StepsStayNone(state, p1, p2, pt, i + 1, |state|);
            return None;
          }
          var temp := newState[i];
          newState[i] := newState[j];
          newState[j] := temp;
        }
      }
    }
    return Some(newState[..]);
  }

  /** Amplitude k trades places with amplitude Flip(k, pt): both controls set, and the target is a different, non-sign bit. */
  predicate Paired(k: nat, p1: nat, p2: nat, pt: nat) {
    pt < 31 && pt != p1 && pt != p2 && Controlled(k, p1, p2)
  }

  /** The smaller index of k's pair, where the loop performs the swap. */
  function Lower(k: nat, pt: nat): nat {
    if Bit(k, pt) == 0 then k else Flip(k, pt)
  }

  /** Some index below i would swap with a partner at or past the end of an array of this length. */
  predicate Overflows(len: nat, p1: nat, p2: nat, pt: nat, i: nat) {
    exists k :: 0 <= k < i && Paired(k, p1, p2, pt) && Bit(k, pt) == 0 && Flip(k, pt) >= len
  }

  /** The partner of a paired index lies inside the array when nothing overflows. */
  lemma PartnerInside(len: nat, p1: nat, p2: nat, pt: nat, i: nat, k: nat)
    requires k < len && i <= len && !Overflows(len, p1, p2, pt, i)
    requires Paired(k, p1, p2, pt) && Lower(k, pt) < i
    ensures Flip(k, pt) < len
  {
    FlipOrder(k, pt);
  }

  /** The copy once the swaps at the indices below i are done, stated entry by entry. */
  function CcnotPartial(s: Vector, p1: nat, p2: nat, pt: nat, i: nat): (w: Vector)
    requires i <= |s| && !Overflows(|s|, p1, p2, pt, i)
    ensures |w| == |s|
  {
    seq(|s|, k requires 0 <= k < |s| =>
      if Paired(k, p1, p2, pt) && Lower(k, pt) < i then
        PartnerInside(|s|, p1, p2, pt, i, k);
        s[Flip(k, pt)]
      else s[k])
  }

  /** What applyCCNOT computes: each paired amplitude is replaced by its partner's. */
  function Toffoli(s: Vector, p1: nat, p2: nat, pt: nat): (w: Vector)
    requires !Overflows(|s|, p1, p2, pt, |s|)
    ensures |w| == |s|
    ensures forall k :: 0 <= k < |s| && Paired(k, p1, p2, pt) ==> Flip(k, pt) < |s|
  {
    assert forall k :: 0 <= k < |s| && Paired(k, p1, p2, pt) ==> Flip(k, pt) < |s| by {
      forall k | 0 <= k < |s| && Paired(k, p1, p2, pt)
        ensures Flip(k, pt) < |s|
      {
        FlipOrder(k, pt);
      }
    }
    seq(|s|, k requires 0 <= k < |s| =>
      if Paired(k, p1, p2, pt) then
        FlipOrder(k, pt);
        s[Flip(k, pt)]
      else s[k])
  }

  /** The loop swaps at index k exactly when k is paired and is the lower index of its pair. */
  lemma SwapsUpIff(k: nat, p1: nat, p2: nat, pt: nat)
    ensures (Controlled(k, p1, p2) && k < XorMask(k, pt)) <==> (Paired(k, p1, p2, pt) && Bit(k, pt) == 0)
  {
    FlipOrder(k, pt);
  }

  /** An index whose pair has its swap at k is k itself or k's partner, and k is a lower, paired index. */
  lemma LowerIsPaired(m: nat, k: nat, p1: nat, p2: nat, pt: nat)
    requires Paired(m, p1, p2, pt) && Lower(m, pt) == k
    ensures Paired(k, p1, p2, pt) && Bit(k, pt) == 0
    ensures m == k || m == Flip(k, pt)
  {
    if Bit(m, pt) == 1 {
      FlipBit(m, pt, pt);
      FlipBit(m, pt, p1);
      FlipBit(m, pt, p2);
      FlipTwice(m, pt);
    }
  }

  /** The partner of a lower, paired index is paired too, with the swap at the same place. */
  lemma PartnerPaired(k: nat, p1: nat, p2: nat, pt: nat)
    requires Paired(k, p1, p2, pt) && Bit(k, pt) == 0
    ensures Paired(Flip(k, pt), p1, p2, pt) && Bit(Flip(k, pt), pt) == 1
    ensures Lower(Flip(k, pt), pt) == k && Flip(Flip(k, pt), pt) == k
  {
    FlipBit(k, pt, pt);
    FlipBit(k, pt, p1);
    FlipBit(k, pt, p2);
    FlipTwice(k, pt);
  }

  /** An index with no swap leaves the copy as it was. */
  lemma NoSwapStep(s: Vector, p1: nat, p2: nat, pt: nat, i: nat)
    requires 0 < i <= |s| && !Overflows(|s|, p1, p2, pt, i - 1)
    requires !(Paired(i - 1, p1, p2, pt) && Bit(i - 1, pt) == 0)
    ensures !Overflows(|s|, p1, p2, pt, i)
    ensures CcnotPartial(s, p1, p2, pt, i - 1) == CcnotPartial(s, p1, p2, pt, i)
  {
    forall m | 0 <= m < |s|
      ensures CcnotPartial(s, p1, p2, pt, i - 1)[m] == CcnotPartial(s, p1, p2, pt, i)[m]
    {
      if Paired(m, p1, p2, pt) && Lower(m, pt) == i - 1 {
        LowerIsPaired(m, i - 1, p1, p2, pt);
      }
    }
  }

  /** The swap at a lower, paired index k moves both members of k's pair into place. */
  lemma SwapStep(s: Vector, p1: nat, p2: nat, pt: nat, i: nat)
    requires 0 < i <= |s| && !Overflows(|s|, p1, p2, pt, i - 1)
    requires Paired(i - 1, p1, p2, pt) && Bit(i - 1, pt) == 0 && Flip(i - 1, pt) < |s|
    ensures !Overflows(|s|, p1, p2, pt, i)
    ensures Swap(CcnotPartial(s, p1, p2, pt, i - 1), i - 1, Flip(i - 1, pt)) == CcnotPartial(s, p1, p2, pt, i)
  {
    var k := i - 1;
    var j := Flip(k, pt);
    PartnerPaired(k, p1, p2, pt);
    var before, after := CcnotPartial(s, p1, p2, pt, k), CcnotPartial(s, p1, p2, pt, i);
    forall m | 0 <= m < |s|
      ensures Swap(before, k, j)[m] == after[m]
    {
      if m != k && m != j && Paired(m, p1, p2, pt) && Lower(m, pt) == k {
        LowerIsPaired(m, k, p1, p2, pt);
      }
    }
  }

  /** The loop's result after i indices, entry by entry. */
  lemma {:induction false} StepsClosed(s: Vector, p1: nat, p2: nat, pt: nat, i: nat)
    requires i <= |s|
    ensures CcnotSteps(s, p1, p2, pt, i) ==
      if Overflows(|s|, p1, p2, pt, i) then None else Some(CcnotPartial(s, p1, p2, pt, i))
  {
    if i == 0 {
      assert CcnotPartial(s, p1, p2, pt, 0) == s;
    } else {
      var k := i - 1;
      StepsClosed(s, p1, p2, pt, k);
      SwapsUpIff(k, p1, p2, pt);
      if Overflows(|s|, p1, p2, pt, k) {
        var w :| 0 <= w < k && Paired(w, p1, p2, pt) && Bit(w, pt) == 0 && Flip(w, pt) >= |s|;
        assert w < i;
      } else if !(Paired(k, p1, p2, pt) && Bit(k, pt) == 0) {
        NoSwapStep(s, p1, p2, pt, i);
      } else if Flip(k, pt) >= |s| {
        assert k < i;
      } else {
        SwapStep(s, p1, p2, pt, i);
      }
    }
  }

  /** Every index lies at or above the lower index of its pair. */
  lemma LowerAtMost(k: nat, pt: nat)
    ensures Lower(k, pt) <= k
  {
    FlipOrder(k, pt);
  }

  /**
   * applyCCNOT's result: None when the state is longer than 2^31 or a swap
   * would write past the end; otherwise every paired amplitude is replaced by
   * its partner's and every other amplitude is kept.
   */
  lemma CcnotMeaning(state: Vector, c1: int, c2: int, t: int, numQubits: int)
    ensures var p1, p2, pt := MaskBit(numQubits, c1), MaskBit(numQubits, c2), MaskBit(numQubits, t);
      CcnotSpec(state, c1, c2, t, numQubits) ==
        if |state| > Int32Range || Overflows(|state|, p1, p2, pt, |state|) then None
        else Some(Toffoli(state, p1, p2, pt))
  {
    var p1, p2, pt := MaskBit(numQubits, c1), MaskBit(numQubits, c2), MaskBit(numQubits, t);
    StepsClosed(state, p1, p2, pt, |state|);
    if !Overflows(|state|, p1, p2, pt, |state|) {
      forall k | 0 <= k < |state|
        ensures CcnotPartial(state, p1, p2, pt, |state|)[k] == Toffoli(state, p1, p2, pt)[k]
      {
        LowerAtMost(k, pt);
      }
      assert CcnotPartial(state, p1, p2, pt, |state|) == Toffoli(state, p1, p2, pt);
    }
  }

  lemma SwapPermutes(w: Vector, i: nat, j: nat)
    requires i < |w| && j < |w|
    ensures multiset(Swap(w, i, j)) == multiset(w)
  {
  }

  /** The swaps only rearrange the amplitudes. */
  lemma {:induction false} StepsPermute(s: Vector, p1: nat, p2: nat, pt: nat, i: nat)
    requires i <= |s| && CcnotSteps(s, p1, p2, pt, i).Some?
    ensures multiset(CcnotSteps(s, p1, p2, pt, i).value) == multiset(s)
  {
    if i > 0 {
      StepPermutes(s, p1, p2, pt, i);
      StepsPermute(s, p1, p2, pt, i - 1);
    }
  }

  /** One visit of the loop rearranges the copy, or leaves it as it is. */
  lemma StepPermutes(s: Vector, p1: nat, p2: nat, pt: nat, i: nat)
    requires 0 < i <= |s| && CcnotSteps(s, p1, p2, pt, i).Some?
    ensures CcnotSteps(s, p1, p2, pt, i - 1).Some?
    ensures multiset(CcnotSteps(s, p1, p2, pt, i).value) == multiset(CcnotSteps(s, p1, p2, pt, i - 1).value)
  {
    var prev := CcnotSteps(s, p1, p2, pt, i - 1);
    var k := i - 1;
    if Controlled(k, p1, p2) && k < XorMask(k, pt) {
      var j := XorMask(k, pt);
      SwapPermutes(prev.value, k, j);
    }
  }

  /** applyCCNOT returns a permutation of its input, of the same length. */
  lemma CcnotPermutes(state: Vector, c1: int, c2: int, t: int, numQubits: int)
    requires CcnotSpec(state, c1, c2, t, numQubits).Some?
    ensures |CcnotSpec(state, c1, c2, t, numQubits).value| == |state|
    ensures multiset(CcnotSpec(state, c1, c2, t, numQubits).value) == multiset(state)
  {
    StepsPermute(state, MaskBit(numQubits, c1), MaskBit(numQubits, c2), MaskBit(numQubits, t), |state|);
  }

  lemma ToffoliTwice(s: Vector, p1: nat, p2: nat, pt: nat)
    requires !Overflows(|s|, p1, p2, pt, |s|)
    ensures Toffoli(Toffoli(s, p1, p2, pt), p1, p2, pt) == s
  {
    var w := Toffoli(s, p1, p2, pt);
    forall k | 0 <= k < |s|
      ensures Toffoli(w, p1, p2, pt)[k] == s[k]
    {
      if Paired(k, p1, p2, pt) {
        FlipOrder(k, pt);
        FlipBit(k, pt, p1);
        FlipBit(k, pt, p2);
        FlipTwice(k, pt);
        assert Paired(Flip(k, pt), p1, p2, pt);
      }
    }
  }

  /** applyCCNOT twice with the same arguments gives back the original state. */
  lemma CcnotTwice(state: Vector, c1: int, c2: int, t: int, numQubits: int)
    requires CcnotSpec(state, c1, c2, t, numQubits).Some?
    ensures CcnotSpec(CcnotSpec(state, c1, c2, t, numQubits).value, c1, c2, t, numQubits) == Some(state)
  {
    var p1, p2, pt := MaskBit(numQubits, c1), MaskBit(numQubits, c2), MaskBit(numQubits, t);
    CcnotMeaning(state, c1, c2, t, numQubits);
    var w := Toffoli(state, p1, p2, pt);
    CcnotMeaning(w, c1, c2, t, numQubits);
    ToffoliTwice(state, p1, p2, pt);
  }

  /**
   * With controls and target inside [0, n), n <= 31 and a state of 2^n
   * amplitudes, applyCCNOT always has a result, and qubit q is bit n-1-q:
   * qubit 0 is the most significant bit.
   */
  lemma CcnotInRange(state: Vector, c1: int, c2: int, t: int, n: nat)
    requires n <= 31 && |state| == Pow2(n)
    requires 0 <= c1 < n && 0 <= c2 < n && 0 <= t < n
    ensures !Overflows(|state|, n - 1 - c1, n - 1 - c2, n - 1 - t, |state|)
    ensures CcnotSpec(state, c1, c2, t, n) == Some(Toffoli(state, n - 1 - c1, n - 1 - c2, n - 1 - t))
    ensures forall k :: 0 <= k < |state| ==>
      CcnotSpec(state, c1, c2, t, n).value[k] ==
        if t != c1 && t != c2 && Bit(k, n - 1 - c1) == 1 && Bit(k, n - 1 - c2) == 1
        then state[Flip(k, n - 1 - t)] else state[k]
  {
    var p1, p2, pt := n - 1 - c1, n - 1 - c2, n - 1 - t;
    assert MaskBit(n, c1) == p1 && MaskBit(n, c2) == p2 && MaskBit(n, t) == pt;
    StateFits(|state|, p1, p2, pt, n);
    CcnotMeaning(state, c1, c2, t, n);
    assert CcnotSpec(state, c1, c2, t, n) == Some(Toffoli(state, p1, p2, pt));
    InRangeEntries(state, c1, c2, t, n);
  }

  /** A state of 2^n amplitudes, n <= 31, fits the 32-bit loop and every flip of a bit below n stays inside it. */
  lemma StateFits(len: nat, p1: nat, p2: nat, pt: nat, n: nat)
    requires n <= 31 && len == Pow2(n) && pt < n
    ensures len <= Int32Range
    ensures forall k :: 0 <= k < len ==> Flip(k, pt) < len
    ensures !Overflows(len, p1, p2, pt, len)
  {
    Pow2Monotone(n, 31);
    Pow2Of31();
    FlipsInside(len, pt, n);
  }

  /** The entries of Toffoli at the bits n-1-q, in terms of the qubits. */
  lemma InRangeEntries(state: Vector, c1: int, c2: int, t: int, n: nat)
    requires n <= 31 && |state| == Pow2(n)
    requires 0 <= c1 < n && 0 <= c2 < n && 0 <= t < n
    ensures !Overflows(|state|, n - 1 - c1, n - 1 - c2, n - 1 - t, |state|)
    ensures forall k :: 0 <= k < |state| ==>
      Toffoli(state, n - 1 - c1, n - 1 - c2, n - 1 - t)[k] ==
        if t != c1 && t != c2 && Bit(k, n - 1 - c1) == 1 && Bit(k, n - 1 - c2) == 1
        then state[Flip(k, n - 1 - t)] else state[k]
  {
    var p1, p2, pt := n - 1 - c1, n - 1 - c2, n - 1 - t;
    StateFits(|state|, p1, p2, pt, n);
    assert (t != c1) == (pt != p1) && (t != c2) == (pt != p2);
    ToffoliEntries(state, p1, p2, pt);
  }

  /** On a state of 2^n amplitudes every index has its partner for a bit below n. */
  lemma FlipsInside(len: nat, pt: nat, n: nat)
    requires len == Pow2(n) && pt < n
    ensures forall k :: 0 <= k < len ==> Flip(k, pt) < len
  {
    forall k | 0 <= k < len
      ensures Flip(k, pt) < len
    {
      WithBitBelow(k, pt, 1 - Bit(k, pt), n);
    }
  }

  /** The entries of Toffoli, with pt < 31 (a bit below n <= 31). */
  lemma ToffoliEntries(s: Vector, p1: nat, p2: nat, pt: nat)
    requires pt < 31 && !Overflows(|s|, p1, p2, pt, |s|)
    requires forall k :: 0 <= k < |s| ==> Flip(k, pt) < |s|
    ensures forall k :: 0 <= k < |s| ==>
      Toffoli(s, p1, p2, pt)[k] == if pt != p1 && pt != p2 && Bit(k, p1) == 1 && Bit(k, p2) == 1 then s[Flip(k, pt)] else s[k]
  {
  }

  // ---------------------------------------------------------------------------
  // initialState (src/lib/simulation.ts:28-33)
  // ---------------------------------------------------------------------------

  /**
   * |0...0>: 2^n amplitudes, One at index 0 and Zero elsewhere. `Array(2 ** n)`
   * raises a RangeError unless 0 <= n <= 31 (2^32 is past the longest array).
   */
  function InitialStateSpec(numQubits: int): Outcome<Vector> {
    if 0 <= numQubits <= 31 then Returned(seq(Pow2(numQubits), k => if k == 0 then One else Zero))
    else Threw
  }

  method InitialState(numQubits: int) returns (state: Outcome<Vector>)
    ensures state == InitialStateSpec(numQubits)
    ensures state.Returned? <==> 0 <= numQubits <= 31
    ensures state.Returned? ==>
      |state.value| == Pow2(numQubits) && state.value[0] == One &&
      forall k :: 0 < k < |state.value| ==> state.value[k] == Zero
  {
    if numQubits < 0 || numQubits > 31 {
      return Threw;
    }
    var size := Pow2(numQubits);
    var a := new C[size](_ => Zero);
    a[0] := One;
    state := Returned(a[..]);
    assert a[..] == seq(Pow2(numQubits), k => if k == 0 then One else Zero);
  }

  // ---------------------------------------------------------------------------
  // runCircuit (src/lib/simulation.ts:35-183)
  // ---------------------------------------------------------------------------

  /**
   * A gate object as runCircuit reads it. Missing stands for null, a
   * non-object and the empty object {}; a None field is an undefined one, and
   * targets None is a targets value that is not an array.
   */
  datatype RawGate =
    | Missing
    | Gate(kind: Option<string>, targets: Option<seq<int>>, params: Option<Rot>)

  /** A step that is not an array is None. */
  type Step = Option<seq<RawGate>>

  /** circuit.gates: None when it is falsy or not an array. */
  datatype Circuit = Circuit(gates: Option<seq<Step>>)

  /**
   * What runCircuit returns: the final state; Raised when an exception
   * escapes (only initialState's RangeError does); Unmodelled when applyCCNOT
   * writes past the end of its array, a case this model does not follow.
   */
  datatype Run = Final(state: Vector) | Raised | Unmodelled

  /** The gate is skipped before the switch (src/lib/simulation.ts:52-66). */
  predicate Malformed(g: RawGate) {
    g.Missing? || g.kind.None? || g.kind.value == "" || g.targets.None? || |g.targets.value| == 0
  }

  predicate IsRotation(kind: string) {
    kind == "RX" || kind == "RY" || kind == "RZ"
  }

  /**
   * The gate after runCircuit has run over it: a rotation with undefined
   * params gets the default angle written back onto the gate object.
   */
  function WithDefault(g: RawGate, defaultRot: Rot): (w: RawGate)
  {
    if !Malformed(g) && IsRotation(g.kind.value) && g.params.None? then g.(params := Some(defaultRot)) else g
  }

  /** The angle a rotation gate is applied with. */
  function Angle(g: RawGate, defaultRot: Rot): Rot
    requires g.Gate?
  {
    if g.params.Some? then g.params.value else defaultRot
  }

  /** The catch block: a gate whose application throws leaves the state as it was. */
  function Caught(before: Vector, o: Outcome<Vector>): Vector {
    if o.Threw? then before else o.value
  }

  /**
   * applySingleQubitGate called with the undefined yGate: kron reads the
   * length of undefined, and throws, when the loop reaches the target; a
   * target outside [0, n) leaves only identity factors.
   */
  function MissingGate(v: Vector, t: int, n: nat): Outcome<Vector> {
    if 0 <= t < n then Threw else MatVec(Identity(Pow2(n)), v)
  }

  /** The single-qubit matrix the switch picks for a kind, if any. */
  function SingleGateOf(kind: string, g: RawGate, r: real, defaultRot: Rot): (m: Option<Matrix>)
    requires g.Gate?
    ensures m.Some? ==> Square(m.value, 2)
  {
    if kind == "H" then Some(HGate(r))
    else if kind == "X" then Some(XGate())
    else if kind == "Z" then Some(ZGate())
    else if kind == "RX" then Some(RxGate(Angle(g, defaultRot)))
    else if kind == "RY" then Some(RyGate(Angle(g, defaultRot)))
    else if kind == "RZ" then Some(RzGate(Angle(g, defaultRot)))
    else None
  }

  /** The state after one gate of a step; None once the model stops following the program. */
  function GateStep(state: Vector, g: RawGate, n: nat, r: real, defaultRot: Rot): Option<Vector> {
    if Malformed(g) then Some(state)
    else
      var kind, ts := g.kind.value, g.targets.value;
      var single := SingleGateOf(kind, g, r, defaultRot);
      if single.Some? then Some(Caught(state, MatVec(SingleOperator(single.value, ts[0], n), state)))
      else if kind == "Y" then Some(Caught(state, MissingGate(state, ts[0], n)))
      else if kind == "CNOT" then
        if |ts| < 2 then Some(state)
        else Some(Caught(state, MatVec(TwoQubitOperator(CnotGate(), ts[0], ts[1], n), state)))
      else if kind == "CCNOT" then
        if |ts| < 3 then Some(state)
        else CcnotSpec(state, ts[0], ts[1], ts[2], n)
      else Some(state)
  }

  /** The gates of one step, in order. */
  function RunGates(s: Option<Vector>, gates: seq<RawGate>, n: nat, r: real, defaultRot: Rot): Option<Vector>
    decreases |gates|
  {
    if gates == [] then s
    else
      var prev := RunGates(s, gates[..|gates| - 1], n, r, defaultRot);
      if prev.None? then None else GateStep(prev.value, gates[|gates| - 1], n, r, defaultRot)
  }

  /** The steps in order; a step that is not an array is skipped. */
  function RunSteps(s: Option<Vector>, steps: seq<Step>, n: nat, r: real, defaultRot: Rot): Option<Vector>
    decreases |steps|
  {
    if steps == [] then s
    else
      var prev := RunSteps(s, steps[..|steps| - 1], n, r, defaultRot);
      var last := steps[|steps| - 1];
      if last.None? then prev else RunGates(prev, last.value, n, r, defaultRot)
  }

  /** runCircuit(circuit, numQubits), with r for 1/sqrt(2) and defaultRot for the angle pi/2. */
  function RunSpec(circuit: Circuit, numQubits: int, r: real, defaultRot: Rot): Run {
    var init := InitialStateSpec(numQubits);
    if init.Threw? then Raised
    else if circuit.gates.None? then Final(init.value)
    else
      var o := RunSteps(Some(init.value), circuit.gates.value, numQubits, r, defaultRot);
      if o.None? then Unmodelled else Final(o.value)
  }

  function RewriteStep(step: Step, defaultRot: Rot): Step {
    if step.None? then None
    else Some(seq(|step.value|, j requires 0 <= j < |step.value| => WithDefault(step.value[j], defaultRot)))
  }

  /** The circuit object after runCircuit: every rotation's missing params filled in. */
  function Rewritten(circuit: Circuit, defaultRot: Rot): Circuit {
    if circuit.gates.None? then circuit
    else Circuit(Some(seq(|circuit.gates.value|, i requires 0 <= i < |circuit.gates.value| =>
      RewriteStep(circuit.gates.value[i], defaultRot))))
  }

  /** applySingleQubitGate (src/lib/operations.ts:81-98) called with the undefined yGate. */
  method ApplyMissingGate(stateVector: Vector, targetQubit: int, numQubits: nat) returns (result: Outcome<Vector>)
    ensures result == MissingGate(stateVector, targetQubit, numQubits)
  {
    var fullOperator := IdentityMatrix(1);
    var i: int := numQubits - 1;
    while i >= 0
      invariant -1 <= i < numQubits
      invariant fullOperator == Identity(Pow2(numQubits - 1 - i))
      invariant !(i < targetQubit < numQubits)
    {
      if i == targetQubit {
        // kron(fullOperator, undefined) reads undefined.length
        return Threw;
      }
      var identity := IdentityMatrix(2);
      fullOperator := Kron(fullOperator, identity);
      IdentityGrows(numQubits - 1 - i);
      i := i - 1;
    }
    result := MatrixVectorMultiply(fullOperator, stateVector);
  }

  /** One pass of the inner loop of runCircuit over a gate (src/lib/simulation.ts:50-179). */
  method ApplyGate(state: Vector, gate: RawGate, numQubits: nat, r: real, defaultRot: Rot)
    returns (next: Option<Vector>, written: RawGate)
    ensures next == GateStep(state, gate, numQubits, r, defaultRot)
    ensures written == WithDefault(gate, defaultRot)
  {
    written := gate;
    if gate.Missing? || gate.kind.None? || gate.kind.value == "" || gate.targets.None? {
      return Some(state), written;
    }
    var targets := gate.targets.value;
    if |targets| == 0 {
      return Some(state), written;
    }
    var kind := gate.kind.value;
    var outcome: Outcome<Vector>;
    if kind == "H" {
      outcome := ApplySingleQubitGate(state, HGate(r), targets[0], numQubits);
    } else if kind == "X" {
      outcome := ApplySingleQubitGate(state, XGate(), targets[0], numQubits);
    } else if kind == "Y" {
      outcome := ApplyMissingGate(state, targets[0], numQubits);
    } else if kind == "Z" {
      outcome := ApplySingleQubitGate(state, ZGate(), targets[0], numQubits);
    } else if IsRotation(kind) {
      if gate.params.None? {
        written := gate.(params := Some(defaultRot));
      }
      var angle := written.params.value;
      var matrix := if kind == "RX" then RxGate(angle) else if kind == "RY" then RyGate(angle) else RzGate(angle);
      outcome := ApplySingleQubitGate(state, matrix, targets[0], numQubits);
    } else if kind == "CNOT" {
      if |targets| < 2 {
        return Some(state), written;
      }
      outcome := ApplyTwoQubitGate(state, CnotGate(), targets[0], targets[1], numQubits);
    } else if kind == "CCNOT" {
      if |targets| < 3 {
        return Some(state), written;
      }
      next := ApplyCcnot(state, targets[0], targets[1], targets[2], numQubits);
      return;
    } else {
      return Some(state), written;
    }
    next := Some(Caught(state, outcome));
  }

  lemma {:induction false} GatesStayNone(s: Option<Vector>, gates: seq<RawGate>, m: nat, n: nat, r: real, defaultRot: Rot)
    requires m <= |gates| && RunGates(s, gates[..m], n, r, defaultRot).None?
    ensures RunGates(s, gates, n, r, defaultRot).None?
    decreases |gates| - m
  {
    if m < |gates| {
      assert gates[..m + 1][..m] == gates[..m];
      GatesStayNone(s, gates, m + 1, n, r, defaultRot);
    } else {
      assert gates[..m] == gates;
    }
  }

  lemma {:induction false} GatesFromNone(gates: seq<RawGate>, n: nat, r: real, defaultRot: Rot)
    ensures RunGates(None, gates, n, r, defaultRot).None?
    decreases |gates|
  {
    if gates != [] {
      GatesFromNone(gates[..|gates| - 1], n, r, defaultRot);
    }
  }

  lemma {:induction false} StepsStayNoneAfter(s: Option<Vector>, steps: seq<Step>, m: nat, n: nat, r: real, defaultRot: Rot)
    requires m <= |steps| && RunSteps(s, steps[..m], n, r, defaultRot).None?
    ensures RunSteps(s, steps, n, r, defaultRot).None?
    decreases |steps| - m
  {
    if m < |steps| {
      assert steps[..m + 1][..m] == steps[..m];
      if steps[m].Some? {
        GatesFromNone(steps[m].value, n, r, defaultRot);
      }
      StepsStayNoneAfter(s, steps, m + 1, n, r, defaultRot);
    } else {
      assert steps[..m] == steps;
    }
  }

  /**
   * runCircuit: the state starts as |0...0>, each array step's gates are
   * applied in order, and the circuit object comes back with the default
   * rotation angles written into it.
   */
  method RunCircuit(circuit: Circuit, numQubits: int, r: real, defaultRot: Rot) returns (run: Run, updated: Circuit)
    ensures run == RunSpec(circuit, numQubits, r, defaultRot)
    ensures updated == if run.Final? then Rewritten(circuit, defaultRot) else circuit
  {
    var init := InitialState(numQubits);
    if init.Threw? {
      return Raised, circuit;
    }
    if circuit.gates.None? {
      return Final(init.value), circuit;
    }
    var n: nat := numQubits;
    var steps := circuit.gates.value;
    var state := init.value;
    var newSteps: seq<Step> := [];
    for i := 0 to |steps|
      invariant RunSteps(Some(init.value), steps[..i], n, r, defaultRot) == Some(state)
      invariant newSteps == seq(i, k requires 0 <= k < i => RewriteStep(steps[k], defaultRot))
    {
      assert steps[..i + 1][..i] == steps[..i];
      var step := steps[i];
      if step.None? {
        newSteps := newSteps + [step];
        continue;
      }
      var next, newGates := RunStepGates(state, step.value, n, r, defaultRot);
      if next.None? {
        StepsStayNoneAfter(Some(init.value), steps, i + 1, n, r, defaultRot);
        return Unmodelled, circuit;
      }
      state := next.value;
      newSteps := newSteps + [Some(newGates)];
    }
    assert steps[..|steps|] == steps;
    run := Final(state);
    updated := Circuit(Some(newSteps));
    assert updated.gates.value == Rewritten(circuit, defaultRot).gates.value;
  }

  /** The inner forEach over one step's gates, with the params each rotation is left with. */
  method RunStepGates(state: Vector, gates: seq<RawGate>, n: nat, r: real, defaultRot: Rot)
    returns (next: Option<Vector>, newGates: seq<RawGate>)
    ensures next == RunGates(Some(state), gates, n, r, defaultRot)
    ensures next.Some? ==> Some(newGates) == RewriteStep(Some(gates), defaultRot)
  {
    var current := state;
    newGates := [];
    for j := 0 to |gates|
      invariant RunGates(Some(state), gates[..j], n, r, defaultRot) == Some(current)
      invariant newGates == seq(j, k requires 0 <= k < j => WithDefault(gates[k], defaultRot))
    {
      assert gates[..j + 1][..j] == gates[..j];
      var applied, written := ApplyGate(current, gates[j], n, r, defaultRot);
      if applied.None? {
        GatesStayNone(Some(state), gates, j + 1, n, r, defaultRot);
        return None, newGates;
      }
      current := applied.value;
      newGates := newGates + [written];
    }
    assert gates[..|gates|] == gates;
    next := Some(current);
  }

  // ---------------------------------------------------------------------------
  // What runCircuit does with each gate
  // ---------------------------------------------------------------------------

  /**
   * The gates that leave the state as it was without being applied: a
   * malformed gate, a CNOT with fewer than two targets, a CCNOT with fewer
   * than three, and a type the switch does not know.
   */
  lemma SkippedGates(state: Vector, g: RawGate, n: nat, r: real, defaultRot: Rot)
    ensures Malformed(g) ==> GateStep(state, g, n, r, defaultRot) == Some(state)
    ensures !Malformed(g) && g.kind.value == "CNOT" && |g.targets.value| < 2 ==>
      GateStep(state, g, n, r, defaultRot) == Some(state)
    ensures !Malformed(g) && g.kind.value == "CCNOT" && |g.targets.value| < 3 ==>
      GateStep(state, g, n, r, defaultRot) == Some(state)
    ensures !Malformed(g) && !(g.kind.value in ["H", "X", "Y", "Z", "RX", "RY", "RZ", "CNOT", "CCNOT"]) ==>
      GateStep(state, g, n, r, defaultRot) == Some(state)
  {
  }

  /**
   * On a state of 2^n amplitudes every recognised gate has its bit-local
   * effect: the single-qubit gates update bit targets[0] (an index outside
   * [0, n) changes nothing), the missing Y gate changes nothing, CNOT has the
   * effect of applyTwoQubitGate, and CCNOT that of applyCCNOT.
   */
  lemma GateEffects(state: Vector, g: RawGate, n: nat, r: real, defaultRot: Rot)
    requires |state| == Pow2(n) && !Malformed(g)
    ensures var single := SingleGateOf(g.kind.value, g, r, defaultRot);
      single.Some? ==> GateStep(state, g, n, r, defaultRot) == Some(SingleQubitUpdate(state, single.value, g.targets.value[0], n))
    ensures g.kind.value == "Y" ==> GateStep(state, g, n, r, defaultRot) == Some(state)
    ensures g.kind.value == "CNOT" && |g.targets.value| >= 2 ==>
      var ts := g.targets.value;
      GateStep(state, g, n, r, defaultRot) == Some(Caught(state, TwoQubitEffect(state, CnotGate(), ts[0], ts[1], n)))
    ensures g.kind.value == "CCNOT" && |g.targets.value| >= 3 ==>
      var ts := g.targets.value;
      GateStep(state, g, n, r, defaultRot) == CcnotSpec(state, ts[0], ts[1], ts[2], n)
  {
    var ts := g.targets.value;
    var single := SingleGateOf(g.kind.value, g, r, defaultRot);
    if single.Some? {
      SingleQubitFold(state, single.value, ts[0], n);
    } else if g.kind.value == "Y" {
      MatVecIdentity(state, n);
    } else if g.kind.value == "CNOT" && |ts| >= 2 {
      TwoQubitCases(state, CnotGate(), ts[0], ts[1], n);
    }
  }

  /** A CNOT on neighbouring qubits is the bit-local update of the pair (low + 1, low). */
  lemma CnotAdjacent(state: Vector, g: RawGate, n: nat, r: real, defaultRot: Rot)
    requires |state| == Pow2(n) && !Malformed(g) && g.kind.value == "CNOT" && |g.targets.value| >= 2
    requires var ts := g.targets.value; Max(ts[0], ts[1]) == Min(ts[0], ts[1]) + 1 && 0 <= Min(ts[0], ts[1]) && Max(ts[0], ts[1]) < n
    ensures var ts := g.targets.value;
      GateStep(state, g, n, r, defaultRot) == Some(TwoQubitUpdate(state, CnotGate(), Min(ts[0], ts[1]), n))
  {
    GateEffects(state, g, n, r, defaultRot);
  }

  /**
   * A CNOT on neighbouring qubits flips the lower bit where the higher bit is
   * set, whichever of the two targets is listed first: the higher index
   * always acts as the control.
   */
  lemma CnotHigherControls(state: Vector, g: RawGate, n: nat, r: real, defaultRot: Rot)
    requires |state| == Pow2(n) && !Malformed(g) && g.kind.value == "CNOT" && |g.targets.value| >= 2
    requires var ts := g.targets.value; Max(ts[0], ts[1]) == Min(ts[0], ts[1]) + 1 && 0 <= Min(ts[0], ts[1]) && Max(ts[0], ts[1]) < n
    ensures GateStep(state, g, n, r, defaultRot).Some?
    ensures |GateStep(state, g, n, r, defaultRot).value| == |state|
    ensures var ts := g.targets.value;
      var high, low := Max(ts[0], ts[1]), Min(ts[0], ts[1]);
      forall k :: 0 <= k < |state| ==>
        Flip(k, low) < |state| &&
        GateStep(state, g, n, r, defaultRot).value[k] == if Bit(k, high) == 1 then state[Flip(k, low)] else state[k]
  {
    var ts := g.targets.value;
    var high, low := Max(ts[0], ts[1]), Min(ts[0], ts[1]);
    CnotAdjacent(state, g, n, r, defaultRot);
    var w := TwoQubitUpdate(state, CnotGate(), low, n);
    assert GateStep(state, g, n, r, defaultRot) == Some(w);
    CnotUpdateFlips(state, low, n);
    assert high == low + 1;
  }

  /** CnotFlips for every amplitude at once. */
  lemma CnotUpdateFlips(state: Vector, low: nat, n: nat)
    requires |state| == Pow2(n) && low + 1 < n
    ensures forall k :: 0 <= k < |state| ==>
      Flip(k, low) < |state| &&
      TwoQubitUpdate(state, CnotGate(), low, n)[k] == if Bit(k, low + 1) == 1 then state[Flip(k, low)] else state[k]
  {
    forall k | 0 <= k < |state|
      ensures Flip(k, low) < |state|
      ensures TwoQubitUpdate(state, CnotGate(), low, n)[k] == if Bit(k, low + 1) == 1 then state[Flip(k, low)] else state[k]
    {
      CnotFlips(state, low, n, k);
    }
  }

  /** One amplitude after a CNOT on neighbouring qubits high = low + 1. */
  lemma CnotEntry(state: Vector, g: RawGate, n: nat, r: real, defaultRot: Rot, high: nat, low: nat, k: nat)
    requires |state| == Pow2(n) && !Malformed(g) && g.kind.value == "CNOT" && |g.targets.value| >= 2
    requires high == Max(g.targets.value[0], g.targets.value[1]) && low == Min(g.targets.value[0], g.targets.value[1])
    requires high == low + 1 && high < n && k < |state|
    ensures GateStep(state, g, n, r, defaultRot).Some? && |GateStep(state, g, n, r, defaultRot).value| == |state|
    ensures Flip(k, low) < |state|
    ensures GateStep(state, g, n, r, defaultRot).value[k] == if Bit(k, high) == 1 then state[Flip(k, low)] else state[k]
  {
    CnotHigherControls(state, g, n, r, defaultRot);
  }

  /**
   * The target-range check (src/lib/simulation.ts:69-74) only continues its
   * own loop, so it never skips a gate: targets after the ones a gate reads,
   * in range or not, change nothing.
   */
  lemma ExtraTargetsIgnored(state: Vector, g: RawGate, extra: seq<int>, n: nat, r: real, defaultRot: Rot)
    requires !Malformed(g)
    requires g.kind.value == "CNOT" ==> |g.targets.value| >= 2
    requires g.kind.value == "CCNOT" ==> |g.targets.value| >= 3
    ensures GateStep(state, g.(targets := Some(g.targets.value + extra)), n, r, defaultRot) == GateStep(state, g, n, r, defaultRot)
  {
    var ts := g.targets.value;
    var longer := g.(targets := Some(ts + extra));
    assert longer.targets.value[0] == ts[0];
    if |ts| >= 2 {
      assert longer.targets.value[1] == ts[1];
    }
    if |ts| >= 3 {
      assert longer.targets.value[2] == ts[2];
    }
  }

  /** Filling in the default angle does not change what the gate does. */
  lemma DefaultSameStep(state: Vector, g: RawGate, n: nat, r: real, defaultRot: Rot)
    ensures Malformed(WithDefault(g, defaultRot)) == Malformed(g)
    ensures WithDefault(WithDefault(g, defaultRot), defaultRot) == WithDefault(g, defaultRot)
    ensures GateStep(state, WithDefault(g, defaultRot), n, r, defaultRot) == GateStep(state, g, n, r, defaultRot)
  {
    if !Malformed(g) {
      var w := WithDefault(g, defaultRot);
      assert w.kind == g.kind && w.targets == g.targets;
      assert Angle(w, defaultRot) == Angle(g, defaultRot);
      assert SingleGateOf(g.kind.value, w, r, defaultRot) == SingleGateOf(g.kind.value, g, r, defaultRot);
    }
  }

  lemma {:induction false} DefaultSameGates(s: Option<Vector>, gates: seq<RawGate>, n: nat, r: real, defaultRot: Rot)
    ensures RunGates(s, RewriteStep(Some(gates), defaultRot).value, n, r, defaultRot) == RunGates(s, gates, n, r, defaultRot)
    decreases |gates|
  {
    if gates != [] {
      var m := |gates| - 1;
      var w := RewriteStep(Some(gates), defaultRot).value;
      assert w[..m] == RewriteStep(Some(gates[..m]), defaultRot).value;
      DefaultSameGates(s, gates[..m], n, r, defaultRot);
      var prev := RunGates(s, gates[..m], n, r, defaultRot);
      if prev.Some? {
        DefaultSameStep(prev.value, gates[m], n, r, defaultRot);
      }
    }
  }

  lemma {:induction false} DefaultSameSteps(s: Option<Vector>, steps: seq<Step>, n: nat, r: real, defaultRot: Rot)
    ensures RunSteps(s, Rewritten(Circuit(Some(steps)), defaultRot).gates.value, n, r, defaultRot) == RunSteps(s, steps, n, r, defaultRot)
    decreases |steps|
  {
    if steps != [] {
      var m := |steps| - 1;
      var w := Rewritten(Circuit(Some(steps)), defaultRot).gates.value;
      assert w[..m] == Rewritten(Circuit(Some(steps[..m])), defaultRot).gates.value;
      DefaultSameSteps(s, steps[..m], n, r, defaultRot);
      if steps[m].Some? {
        DefaultSameGates(RunSteps(s, steps[..m], n, r, defaultRot), steps[m].value, n, r, defaultRot);
      }
    }
  }

  /**
   * The params runCircuit writes back onto its input make no difference to a
   * second run: the rewritten circuit runs to the same result, and running it
   * writes nothing new.
   */
  lemma RewriteKeepsRun(circuit: Circuit, numQubits: int, r: real, defaultRot: Rot)
    ensures RunSpec(Rewritten(circuit, defaultRot), numQubits, r, defaultRot) == RunSpec(circuit, numQubits, r, defaultRot)
    ensures Rewritten(Rewritten(circuit, defaultRot), defaultRot) == Rewritten(circuit, defaultRot)
  {
    if circuit.gates.Some? {
      var steps := circuit.gates.value;
      if 0 <= numQubits <= 31 {
        DefaultSameSteps(Some(InitialStateSpec(numQubits).value), steps, numQubits, r, defaultRot);
      }
      var once := Rewritten(circuit, defaultRot).gates.value;
      var twice := Rewritten(Rewritten(circuit, defaultRot), defaultRot).gates.value;
      forall i | 0 <= i < |steps|
        ensures twice[i] == once[i]
      {
        assert once[i] == RewriteStep(steps[i], defaultRot) && twice[i] == RewriteStep(once[i], defaultRot);
        if steps[i].Some? {
          var gs := steps[i].value;
          forall j | 0 <= j < |gs|
            ensures twice[i].value[j] == once[i].value[j]
          {
            DefaultSameStep([], gs[j], 0, r, defaultRot);
          }
          assert twice[i].value == once[i].value;
        }
      }
      assert twice == once;
    }
  }

  /** The basis state |i> among len amplitudes. */
  function Basis(len: nat, i: nat): (v: Vector)
    ensures |v| == len
  {
    seq(len, k => if k == i then One else Zero)
  }

  /** Every step holds only malformed gates, or is not an array. */
  predicate Inert(steps: seq<Step>) {
    forall i :: 0 <= i < |steps| && steps[i].Some? ==> forall j :: 0 <= j < |steps[i].value| ==> Malformed(steps[i].value[j])
  }

  /** Steps that are not arrays and gates that are malformed are passed over. */
  lemma {:induction false} NothingApplies(s: Option<Vector>, steps: seq<Step>, n: nat, r: real, defaultRot: Rot)
    requires Inert(steps)
    ensures RunSteps(s, steps, n, r, defaultRot) == s
    decreases |steps|
  {
    if steps != [] {
      var m := |steps| - 1;
      NothingApplies(s, steps[..m], n, r, defaultRot);
      if steps[m].Some? {
        MalformedPassed(s, steps[m].value, n, r, defaultRot);
      }
    }
  }

  lemma {:induction false} MalformedPassed(s: Option<Vector>, gates: seq<RawGate>, n: nat, r: real, defaultRot: Rot)
    requires forall j :: 0 <= j < |gates| ==> Malformed(gates[j])
    ensures RunGates(s, gates, n, r, defaultRot) == s
    decreases |gates|
  {
    if gates != [] {
      MalformedPassed(s, gates[..|gates| - 1], n, r, defaultRot);
    }
  }

  /**
   * runCircuit raises only for a qubit count outside [0, 31]; a circuit whose
   * gates field is not an array, or whose steps hold nothing applicable,
   * returns |0...0>.
   */
  lemma RunShape(circuit: Circuit, numQubits: int, r: real, defaultRot: Rot)
    ensures RunSpec(circuit, numQubits, r, defaultRot).Raised? <==> !(0 <= numQubits <= 31)
    ensures 0 <= numQubits <= 31 && circuit.gates.None? ==>
      RunSpec(circuit, numQubits, r, defaultRot) == Final(Basis(Pow2(numQubits), 0))
    ensures 0 <= numQubits <= 31 && circuit.gates.Some? && Inert(circuit.gates.value) ==>
      RunSpec(circuit, numQubits, r, defaultRot) == Final(Basis(Pow2(numQubits), 0))
  {
    if 0 <= numQubits <= 31 {
      assert InitialStateSpec(numQubits).value == Basis(Pow2(numQubits), 0);
      if circuit.gates.Some? && Inert(circuit.gates.value) {
        NothingApplies(Some(Basis(Pow2(numQubits), 0)), circuit.gates.value, numQubits, r, defaultRot);
      }
    }
  }

  /**
   * A CNOT whose larger index is 0 makes applyTwoQubitGate kron in a 4 x 4
   * factor where a 2 x 2 one belongs: the state comes back twice as long.
   */
  lemma CnotAtZeroDoubles(state: Vector, g: RawGate, n: nat, r: real, defaultRot: Rot)
    requires |state| == Pow2(n) && 0 < n && !Malformed(g) && g.kind.value == "CNOT" && |g.targets.value| >= 2
    requires Max(g.targets.value[0], g.targets.value[1]) == 0
    ensures GateStep(state, g, n, r, defaultRot).Some?
    ensures |GateStep(state, g, n, r, defaultRot).value| == 2 * |state|
  {
    GateEffects(state, g, n, r, defaultRot);
    TwoQubitGrows(state, CnotGate(), g.targets.value[0], g.targets.value[1], n);
  }

  /** Once the state is longer than 2^n, every single-qubit gate throws, and the catch keeps the state. */
  lemma LongStateStuck(state: Vector, g: RawGate, n: nat, r: real, defaultRot: Rot)
    requires |state| > Pow2(n) && !Malformed(g) && SingleGateOf(g.kind.value, g, r, defaultRot).Some?
    ensures GateStep(state, g, n, r, defaultRot) == Some(state)
  {
    var m := SingleGateOf(g.kind.value, g, r, defaultRot).value;
    MatVecTooLong(SingleOperator(m, g.targets.value[0], n), state, Pow2(n));
  }

  /**
   * A CNOT whose two indices are not neighbours keeps one identity factor too
   * few: the operator is too small for the state, the product throws, and the
   * catch keeps the state.
   */
  lemma CnotApartIgnored(state: Vector, g: RawGate, n: nat, r: real, defaultRot: Rot)
    requires |state| == Pow2(n) && !Malformed(g) && g.kind.value == "CNOT" && |g.targets.value| >= 2
    requires var ts := g.targets.value; 0 <= Min(ts[0], ts[1]) < Max(ts[0], ts[1]) - 1 && Max(ts[0], ts[1]) < n
    ensures GateStep(state, g, n, r, defaultRot) == Some(state)
  {
    GateEffects(state, g, n, r, defaultRot);
  }
}
