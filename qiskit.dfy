/**
 * QiskitCodeGenerator (src/lib/qiskit-generator.ts): turns a builder
 * circuit into a Qiskit program. The program text is modelled as a list of
 * structured lines; the fixed prose lines around them (imports, drawing,
 * execution and plotting) carry no information about the circuit and are
 * represented by the import list alone.
 */
module Qiskit {
  import opened Common
  import opened Ui
  import opened Text
  import opened Seqs

  // ---------------------------------------------------------------------------
  // Gate lines
  // ---------------------------------------------------------------------------

  /** The angle of a rotation line: the gate's theta, or pi/2 when theta is falsy. */
  datatype Angle = Theta(value: real) | HalfPi

  /**
   * One gate's code line. An index written as None prints as `undefined`,
   * which is what the template literal does with a missing field.
   */
  datatype GateLine =
    | Single(kind: string, qubit: Option<int>)                // qc.h / qc.x / qc.y / qc.z
    | Cx(control: int, target: int)                           // qc.cx
    | Ccx(control: int, control2: int, target: int)           // qc.ccx
    | Rotation(kind: string, angle: Angle, qubit: Option<int>) // qc.rx / qc.ry / qc.rz
    | Measure(qubit: Option<int>)                             // qc.measure(q, q)
    | UnknownType(kind: string)                               // # Unknown gate type: T

  /** `gate.theta || Math.PI / 2`. */
  function AngleOf(theta: Option<real>): (a: Angle)
    ensures a == HalfPi <==> theta.None? || theta.value == 0.0
    ensures a.Theta? ==> a.value == theta.value
  {
    if theta.Some? && theta.value != 0.0 then Theta(theta.value) else HalfPi
  }

  /** The gate types generateGateCode has a case for. */
  const KnownTypes: set<string> := {"H", "X", "Y", "Z", "CNOT", "CCNOT", "RX", "RY", "RZ", "MEASURE"}

  /** generateGateCode; None stands for the empty string, which emits no line. */
  function GateCode(g: UiGate): (r: Option<GateLine>)
    ensures r.None? <==>
      || (g.kind == "CNOT" && (g.control.None? || g.target.None?))
      || (g.kind == "CCNOT" && (g.control.None? || g.control2.None? || g.target.None?))
    ensures g.kind !in KnownTypes ==> r == Some(UnknownType(g.kind))
    ensures g.kind in {"H", "X", "Y", "Z"} ==> r == Some(Single(g.kind, g.qubit))
    ensures g.kind == "CNOT" && r.Some? ==> r == Some(Cx(g.control.value, g.target.value))
    ensures g.kind == "CCNOT" && r.Some? ==> r == Some(Ccx(g.control.value, g.control2.value, g.target.value))
    ensures g.kind in {"RX", "RY", "RZ"} ==>
      r.Some? && r.value.Rotation? && r.value.kind == g.kind && r.value.qubit == g.qubit &&
      (r.value.angle == HalfPi <==> g.theta.None? || g.theta.value == 0.0) &&
      (r.value.angle.Theta? ==> r.value.angle.value == g.theta.value)
    ensures g.kind == "MEASURE" ==> r == Some(Measure(g.qubit))
  {
    if g.kind in {"H", "X", "Y", "Z"} then Some(Single(g.kind, g.qubit))
    else if g.kind == "CNOT" then
      if g.control.Some? && g.target.Some? then Some(Cx(g.control.value, g.target.value)) else None
    else if g.kind == "CCNOT" then
      if g.control.Some? && g.control2.Some? && g.target.Some? then
        Some(Ccx(g.control.value, g.control2.value, g.target.value))
      else None
    else if g.kind in {"RX", "RY", "RZ"} then Some(Rotation(g.kind, AngleOf(g.theta), g.qubit))
    else if g.kind == "MEASURE" then Some(Measure(g.qubit))
    else Some(UnknownType(g.kind))
  }

  // ---------------------------------------------------------------------------
  // Circuit name
  // ---------------------------------------------------------------------------

  /** generateCircuitName: the first rule of the table that applies names the circuit. */
  function CircuitName(c: seq<UiGate>): (name: string)
    ensures |c| == 0 <==> name == "Empty Circuit"
    ensures name == "Bell State Circuit" <==> HasKind(c, "H") && HasKind(c, "CNOT")
    ensures name == "Superposition Circuit" <==> HasKind(c, "H") && !HasKind(c, "CNOT")
    ensures name == "Quantum Interference Circuit" <==>
      !HasKind(c, "H") && HasKind(c, "X") && HasKind(c, "Z")
    ensures name == "Multi-Qubit Circuit" <==>
      !HasKind(c, "H") && !(HasKind(c, "X") && HasKind(c, "Z")) && HasKind(c, "CNOT") && |c| > 3
    ensures name == "Custom Quantum Circuit" <==>
      |c| > 0 && !HasKind(c, "H") && !(HasKind(c, "X") && HasKind(c, "Z")) && !(HasKind(c, "CNOT") && |c| > 3)
  {
    if |c| == 0 then "Empty Circuit"
    else if HasKind(c, "H") && HasKind(c, "CNOT") then "Bell State Circuit"
    else if HasKind(c, "H") && !HasKind(c, "CNOT") then "Superposition Circuit"
    else if HasKind(c, "X") && HasKind(c, "Z") then "Quantum Interference Circuit"
    else if HasKind(c, "CNOT") && |c| > 3 then "Multi-Qubit Circuit"
    else "Custom Quantum Circuit"
  }

  // ---------------------------------------------------------------------------
  // Stable sort by position
  // ---------------------------------------------------------------------------

  /**
   * The sort key, a.position. Every gate generateCode sorts has a position;
   * a missing one (on which the comparator is undefined) is read as 0 here.
   */
  function Pos(g: UiGate): int {
    if g.position.Some? then g.position.value else 0
  }

  /** Positions never decrease along the sequence. */
  predicate Ascending(s: seq<UiGate>) {
    forall i, j :: 0 <= i < j < |s| ==> Pos(s[i]) <= Pos(s[j])
  }

  /** Inserts x after every element whose position is at most x's. */
  function Insert(s: seq<UiGate>, x: UiGate): (r: seq<UiGate>)
    ensures |r| == |s| + 1
    decreases |s|
  {
    if s == [] || Pos(s[|s| - 1]) <= Pos(x) then s + [x]
    else Insert(s[..|s| - 1], x) + [s[|s| - 1]]
  }

  /** `[...circuit].sort((a, b) => a.position - b.position)`: a stable sort. */
  function SortByPosition(c: seq<UiGate>): (r: seq<UiGate>)
    ensures |r| == |c|
  {
    if c == [] then [] else Insert(SortByPosition(c[..|c| - 1]), c[|c| - 1])
  }

  lemma {:induction false} InsertPermutes(s: seq<UiGate>, x: UiGate)
    ensures multiset(Insert(s, x)) == multiset(s) + multiset{x}
    decreases |s|
  {
    if !(s == [] || Pos(s[|s| - 1]) <= Pos(x)) {
      var init, last := s[..|s| - 1], s[|s| - 1];
      InsertPermutes(init, x);
      assert Insert(s, x) == Insert(init, x) + [last];
      assert s == init + [last];
      assert multiset(s) == multiset(init) + multiset{last};
    }
  }

  /** The sort is a permutation of the circuit. */
  lemma {:induction false} SortPermutes(c: seq<UiGate>)
    ensures multiset(SortByPosition(c)) == multiset(c)
  {
    if c != [] {
      var init, last := c[..|c| - 1], c[|c| - 1];
      SortPermutes(init);
      assert SortByPosition(c) == Insert(SortByPosition(init), last);
      InsertPermutes(SortByPosition(init), last);
      assert c == init + [last];
      assert multiset(c) == multiset(init) + multiset{last};
    }
  }

  lemma AscendingInit(s: seq<UiGate>)
    requires Ascending(s) && s != []
    ensures Ascending(s[..|s| - 1])
  {
    var init := s[..|s| - 1];
    assert forall i :: 0 <= i < |init| ==> init[i] == s[i];
  }

  lemma {:induction false} InsertAscending(s: seq<UiGate>, x: UiGate)
    requires Ascending(s)
    ensures Ascending(Insert(s, x))
    decreases |s|
  {
    var r := Insert(s, x);
    if s == [] || Pos(s[|s| - 1]) <= Pos(x) {
      assert r == s + [x];
    } else {
      var init, last := s[..|s| - 1], s[|s| - 1];
      AscendingInit(s);
      InsertAscending(init, x);
      InsertPermutes(init, x);
      var m := Insert(init, x);
      assert r == m + [last];
      forall y | y in m
        ensures Pos(y) <= Pos(last)
      {
        assert y in multiset(m);
        if y != x {
          assert y in multiset(init);
          var i :| 0 <= i < |init| && init[i] == y;
          assert s[i] == y;
        }
      }
      forall i, j | 0 <= i < j < |r|
        ensures Pos(r[i]) <= Pos(r[j])
      {
        if j == |r| - 1 {
          assert r[i] == m[i] && m[i] in m;
        } else {
          assert r[i] == m[i] && r[j] == m[j];
        }
      }
    }
  }

  /** The sort puts positions in ascending order. */
  lemma {:induction false} SortAscending(c: seq<UiGate>)
    ensures Ascending(SortByPosition(c))
  {
    if c != [] {
      SortAscending(c[..|c| - 1]);
      InsertAscending(SortByPosition(c[..|c| - 1]), c[|c| - 1]);
    }
  }

  /** The gates at one position. */
  function AtPosition(p: Option<int>): UiGate -> bool {
    (g: UiGate) => g.position == p
  }

  /** Inserting x appends it to the gates of its own position. */
  lemma {:induction false} InsertStable(s: seq<UiGate>, x: UiGate, p: Option<int>)
    requires x.position.Some?
    ensures Select(Insert(s, x), AtPosition(p)) == Select(s, AtPosition(p)) + (if x.position == p then [x] else [])
    decreases |s|
  {
    var keep := AtPosition(p);
    if s == [] || Pos(s[|s| - 1]) <= Pos(x) {
      SelectSnoc(s, x, keep);
    } else {
      var init, last := s[..|s| - 1], s[|s| - 1];
      assert init + [last] == s;
      assert Insert(s, x) == Insert(init, x) + [last];
      assert Select(Insert(init, x), keep) == Select(init, keep) + (if x.position == p then [x] else []) by {
        InsertStable(init, x, p);
      }
      InsertStableStep(init, last, x, p);
    }
  }

  lemma InsertStableStep(init: seq<UiGate>, last: UiGate, x: UiGate, p: Option<int>)
    requires Pos(x) < Pos(last) && x.position.Some?
    requires Select(Insert(init, x), AtPosition(p)) == Select(init, AtPosition(p)) + (if x.position == p then [x] else [])
    ensures Select(Insert(init, x) + [last], AtPosition(p)) == Select(init + [last], AtPosition(p)) + (if x.position == p then [x] else [])
  {
    SelectSnoc(Insert(init, x), last, AtPosition(p));
    SelectSnoc(init, last, AtPosition(p));
  }

  /** The sort is stable: on a placed circuit the gates of each position keep their relative order. */
  lemma {:induction false} SortStable(c: seq<UiGate>, p: Option<int>)
    requires Placed(c)
    ensures Select(SortByPosition(c), AtPosition(p)) == Select(c, AtPosition(p))
  {
    if c != [] {
      var init := c[..|c| - 1];
      assert forall i :: 0 <= i < |init| ==> init[i] == c[i];
      SortStable(init, p);
      InsertStable(SortByPosition(init), c[|c| - 1], p);
    }
  }

  // ---------------------------------------------------------------------------
  // Grouping by position (the Map of position to gates)
  // ---------------------------------------------------------------------------

  type Group = (Option<int>, seq<UiGate>)

  /** One step of the forEach that fills the Map: a new key goes last, an old key gets the gate appended. */
  function AddToGroups(g: seq<Group>, x: UiGate): seq<Group> {
    var j := IndexOfKey(g, x.position);
    if j < |g| then g[j := (g[j].0, g[j].1 + [x])] else g + [(x.position, [x])]
  }

  /** The Map after the forEach over s, in insertion order. */
  function Grouped(s: seq<UiGate>): seq<Group> {
    if s == [] then [] else AddToGroups(Grouped(s[..|s| - 1]), s[|s| - 1])
  }

  function PositionsOf(s: seq<UiGate>): (ps: seq<Option<int>>)
    ensures |ps| == |s| && forall i :: 0 <= i < |s| ==> ps[i] == s[i].position
  {
    seq(|s|, i requires 0 <= i < |s| => s[i].position)
  }

  /** The keys of the Map are distinct and are exactly the positions that occur. */
  lemma {:induction false} GroupedKeys(s: seq<UiGate>)
    ensures DistinctKeys(Grouped(s))
    ensures forall i :: 0 <= i < |s| ==> s[i].position in Keys(Grouped(s))
    ensures forall j :: 0 <= j < |Grouped(s)| ==> Grouped(s)[j].0 in PositionsOf(s)
  {
    if s != [] {
      var init, x := s[..|s| - 1], s[|s| - 1];
      GroupedKeys(init);
      var g0, g := Grouped(init), Grouped(s);
      IndexOfKeyFound(g0, x.position);
      assert PositionsOf(s) == PositionsOf(init) + [x.position];
      if IndexOfKey(g0, x.position) < |g0| {
        assert Keys(g) == Keys(g0);
      } else {
        assert Keys(g) == Keys(g0) + [x.position];
      }
      forall i | 0 <= i < |s|
        ensures s[i].position in Keys(g)
      {
        if i < |init| {
          assert init[i] == s[i];
        }
      }
    }
  }

  /** Each position's group holds exactly the gates at that position, in their order in s. */
  lemma {:induction false} GroupedContents(s: seq<UiGate>)
    ensures forall j :: 0 <= j < |Grouped(s)| ==> Grouped(s)[j].1 == Select(s, AtPosition(Grouped(s)[j].0))
  {
    if s != [] {
      var init, x := s[..|s| - 1], s[|s| - 1];
      GroupedContents(init);
      GroupedKeys(init);
      var g0, g := Grouped(init), Grouped(s);
      var j0 := IndexOfKey(g0, x.position);
      IndexOfKeyFound(g0, x.position);
      forall j | 0 <= j < |g|
        ensures g[j].1 == Select(s, AtPosition(g[j].0))
      {
        var k := g[j].0;
        assert Select(s, AtPosition(k)) == Select(init, AtPosition(k)) + (if x.position == k then [x] else []);
        if j0 == |g0| && j == |g0| {
          forall i | 0 <= i < |init|
            ensures !AtPosition(k)(init[i])
          {
            assert init[i].position in Keys(g0);
          }
          SelectNone(init, AtPosition(k));
        }
      }
    }
  }

  /** The number a key stands for (a missing position never reaches here on a placed circuit). */
  function KeyValue(k: Option<int>): int {
    if k.Some? then k.value else 0
  }

  lemma PlacedInit(s: seq<UiGate>)
    requires Placed(s) && s != []
    ensures Placed(s[..|s| - 1])
  {
    assert forall i :: 0 <= i < |s| - 1 ==> s[..|s| - 1][i] == s[i];
  }

  /** A rearrangement of a placed circuit is placed. */
  lemma PermutedPlaced(a: seq<UiGate>, b: seq<UiGate>)
    requires multiset(a) == multiset(b) && Placed(b)
    ensures Placed(a)
  {
    forall i | 0 <= i < |a|
      ensures a[i].position.Some?
    {
      assert a[i] in multiset(b);
      var k :| 0 <= k < |b| && b[k] == a[i];
    }
  }

  /** On a placed sequence every key is a position that is set. */
  lemma GroupedSome(s: seq<UiGate>)
    requires Placed(s)
    ensures forall j :: 0 <= j < |Grouped(s)| ==> Grouped(s)[j].0.Some?
  {
    GroupedKeys(s);
    forall j | 0 <= j < |Grouped(s)|
      ensures Grouped(s)[j].0.Some?
    {
      var i :| 0 <= i < |s| && PositionsOf(s)[i] == Grouped(s)[j].0;
    }
  }

  /** A position that is new to the Map lies above every key already in it. */
  lemma NewKeyAbove(init: seq<UiGate>, x: UiGate)
    requires Ascending(init + [x]) && Placed(init + [x])
    requires IndexOfKey(Grouped(init), x.position) == |Grouped(init)|
    ensures forall a :: 0 <= a < |Grouped(init)| ==> KeyValue(Grouped(init)[a].0) < Pos(x)
  {
    var s := init + [x];
    var g0 := Grouped(init);
    assert forall j :: 0 <= j < |g0| ==> g0[j].0 in PositionsOf(init) by {
      GroupedKeys(init);
    }
    forall a | 0 <= a < |g0|
      ensures KeyValue(g0[a].0) < Pos(x)
    {
      var i :| 0 <= i < |init| && PositionsOf(init)[i] == g0[a].0;
      assert s[i] == init[i] && s[|s| - 1] == x;
      assert Pos(s[i]) <= Pos(s[|s| - 1]);
      assert s[i].position.Some? && x.position.Some?;
      assert KeyValue(g0[a].0) == Pos(init[i]);
      assert g0[a].0 != x.position;
    }
  }

  /** Grouping an ascending placed sequence lists the positions in strictly ascending order. */
  lemma {:induction false} GroupedAscending(s: seq<UiGate>)
    requires Ascending(s) && Placed(s)
    ensures forall a, b :: 0 <= a < b < |Grouped(s)| ==> KeyValue(Grouped(s)[a].0) < KeyValue(Grouped(s)[b].0)
  {
    if s != [] {
      var init, x := s[..|s| - 1], s[|s| - 1];
      AscendingInit(s);
      PlacedInit(s);
      GroupedAscending(init);
      var g0, g := Grouped(init), Grouped(s);
      if IndexOfKey(g0, x.position) < |g0| {
        assert forall a :: 0 <= a < |g0| ==> g[a].0 == g0[a].0;
      } else {
        assert init + [x] == s;
        NewKeyAbove(init, x);
      }
    }
  }

  // ---------------------------------------------------------------------------
  // The generated program
  // ---------------------------------------------------------------------------

  datatype Line =
    | Title(name: string)               // # Quantum Circuit: name
    | Declare(qubits: int, clbits: int) // qc = QuantumCircuit(n, n)
    | Step(number: int)                 // # Step p+1:
    | Emit(code: GateLine)
    | MeasureAll                        // qc.measure_all()

  /** The lines one position's gates produce, in order, skipping empty gate code. */
  function Emitted(gates: seq<UiGate>): seq<Line> {
    if gates == [] then []
    else
      var last := gates[|gates| - 1];
      Emitted(gates[..|gates| - 1]) + (if GateCode(last).Some? then [Emit(GateCode(last).value)] else [])
  }

  /** A Step header per group, each followed by the lines of that group's gates. */
  function Body(groups: seq<Group>): seq<Line> {
    if groups == [] then []
    else
      var last := groups[|groups| - 1];
      Body(groups[..|groups| - 1]) + [Step(KeyValue(last.0) + 1)] + Emitted(last.1)
  }

  const Imports: seq<string> := [
    "from qiskit import QuantumCircuit, Aer, execute",
    "from qiskit.visualization import plot_histogram",
    "import matplotlib.pyplot as plt",
    "import numpy as np"]

  /** The explanation's content: the lower-cased name, the register size with its plural, and the gate counts. */
  datatype Explanation = Explanation(
    circuitName: string,
    numQubits: int,
    plural: bool,
    totalGates: nat,
    typeCounts: seq<(string, nat)>)

  datatype QiskitCodeResult = QiskitCodeResult(
    code: seq<Line>,
    explanation: Explanation,
    imports: seq<string>,
    circuitName: string)

  /** One step of the reduce: the count of type k goes up by one, or k enters with 1. */
  function Tally(t: seq<(string, nat)>, k: string): seq<(string, nat)> {
    var j := IndexOfKey(t, k);
    if j < |t| then t[j := (k, t[j].1 + 1)] else t + [(k, 1)]
  }

  /** The gateCounts object, in the order its keys were first set. */
  function TypeCounts(c: seq<UiGate>): seq<(string, nat)> {
    if c == [] then [] else Tally(TypeCounts(c[..|c| - 1]), c[|c| - 1].kind)
  }

  function Total(t: seq<(string, nat)>): nat {
    if t == [] then 0 else Total(t[..|t| - 1]) + t[|t| - 1].1
  }

  lemma {:induction false} TotalBump(t: seq<(string, nat)>, j: nat, k: string)
    requires j < |t|
    ensures Total(t[j := (k, t[j].1 + 1)]) == Total(t) + 1
    decreases |t|
  {
    var u := t[j := (k, t[j].1 + 1)];
    assert u[..|u| - 1] == if j < |t| - 1 then t[..|t| - 1][j := (k, t[j].1 + 1)] else t[..|t| - 1];
    if j < |t| - 1 {
      TotalBump(t[..|t| - 1], j, k);
    }
  }

  lemma TotalAppend(t: seq<(string, nat)>, e: (string, nat))
    ensures Total(t + [e]) == Total(t) + e.1
  {
    assert (t + [e])[..|t|] == t;
  }

  /** Each gate type is listed once, and every type present is listed. */
  lemma {:induction false} TypeCountsKeys(c: seq<UiGate>)
    ensures DistinctKeys(TypeCounts(c))
    ensures forall i :: 0 <= i < |c| ==> c[i].kind in Keys(TypeCounts(c))
  {
    if c != [] {
      var init, x := c[..|c| - 1], c[|c| - 1];
      TypeCountsKeys(init);
      var t0, t := TypeCounts(init), TypeCounts(c);
      IndexOfKeyFound(t0, x.kind);
      if IndexOfKey(t0, x.kind) < |t0| {
        assert Keys(t) == Keys(t0);
      } else {
        assert Keys(t) == Keys(t0) + [x.kind];
      }
      forall i | 0 <= i < |c|
        ensures c[i].kind in Keys(t)
      {
        if i < |init| {
          assert init[i] == c[i];
        }
      }
    }
  }

  /** Each listed type carries the number of gates of that type. */
  lemma {:induction false} TypeCountsCount(c: seq<UiGate>)
    ensures forall j :: 0 <= j < |TypeCounts(c)| ==>
      TypeCounts(c)[j].1 == CountKind(c, TypeCounts(c)[j].0) && TypeCounts(c)[j].1 >= 1
  {
    if c != [] {
      var init, x := c[..|c| - 1], c[|c| - 1];
      TypeCountsCount(init);
      TypeCountsKeys(init);
      var t0 := TypeCounts(init);
      IndexOfKeyFound(t0, x.kind);
      if IndexOfKey(t0, x.kind) == |t0| {
        // x.kind is new, so no earlier gate has it.
        CountPositive(init, x.kind);
      }
    }
  }

  /** The counts add up to the number of gates. */
  lemma {:induction false} TypeCountsTotal(c: seq<UiGate>)
    ensures Total(TypeCounts(c)) == |c|
  {
    if c != [] {
      var init, x := c[..|c| - 1], c[|c| - 1];
      TypeCountsTotal(init);
      var t0 := TypeCounts(init);
      var j0 := IndexOfKey(t0, x.kind);
      if j0 < |t0| {
        TotalBump(t0, j0, x.kind);
      } else {
        TotalAppend(t0, (x.kind, 1));
      }
    }
  }

  /** What generateExplanation says about the circuit. */
  function ExplanationOf(c: seq<UiGate>, numQubits: int, circuitName: string): Explanation {
    Explanation(Lower(circuitName), numQubits, numQubits > 1, |c|, TypeCounts(c))
  }

  /** generateExplanation: counts the gates per type with a running tally. */
  method GenerateExplanation(circuit: seq<UiGate>, numQubits: int, circuitName: string)
    returns (e: Explanation)
    ensures e == ExplanationOf(circuit, numQubits, circuitName)
    ensures e.totalGates == |circuit| == Total(e.typeCounts)
  {
    var counts: seq<(string, nat)> := [];
    var i := 0;
    while i < |circuit|
      invariant 0 <= i <= |circuit|
      invariant counts == TypeCounts(circuit[..i])
    {
      var kind := circuit[i].kind;
      var j := IndexOfKey(counts, kind);
      if j < |counts| {
        counts := counts[j := (kind, counts[j].1 + 1)];
      } else {
        counts := counts + [(kind, 1)];
      }
      assert circuit[..i + 1][..i] == circuit[..i];
      i := i + 1;
    }
    assert circuit[..i] == circuit;
    e := Explanation(Lower(circuitName), numQubits, numQubits > 1, |circuit|, counts);
    TypeCountsTotal(circuit);
  }

  /** The groups generateCode walks, and the program it writes. */
  function Groups(c: seq<UiGate>): seq<Group> {
    Grouped(SortByPosition(c))
  }

  function CodeOf(c: seq<UiGate>, numQubits: int): seq<Line> {
    [Title(CircuitName(c)), Declare(numQubits, numQubits)] + Body(Groups(c)) + [MeasureAll]
  }

  /**
   * generateCode. Every gate has a position, as the declared type demands;
   * the sort's comparator is not defined on a missing one.
   */
  method GenerateCode(circuit: seq<UiGate>, numQubits: int) returns (r: QiskitCodeResult)
    requires Placed(circuit)
    ensures r.code == CodeOf(circuit, numQubits)
    ensures r.code[1] == Declare(numQubits, numQubits)
    ensures r.code[|r.code| - 1] == MeasureAll
    ensures r.circuitName == CircuitName(circuit)
    ensures r.explanation == ExplanationOf(circuit, numQubits, CircuitName(circuit))
    ensures r.imports == Imports
  {
    var name := CircuitName(circuit);
    var sorted := SortByPosition(circuit);
    var groups := GroupByPosition(sorted);
    var code := WriteProgram(name, numQubits, groups);
    var explanation := GenerateExplanation(circuit, numQubits, name);
    r := QiskitCodeResult(code, explanation, Imports, name);
  }

  /** The lines generateCode pushes: header, one block per group, measure_all. */
  method WriteProgram(name: string, numQubits: int, groups: seq<Group>) returns (code: seq<Line>)
    ensures code == [Title(name), Declare(numQubits, numQubits)] + Body(groups) + [MeasureAll]
  {
    code := [Title(name), Declare(numQubits, numQubits)];
    var k := 0;
    while k < |groups|
      invariant 0 <= k <= |groups|
      invariant code == [Title(name), Declare(numQubits, numQubits)] + Body(groups[..k])
    {
      var position, gates := groups[k].0, groups[k].1;
      var lines := EmitGroup(gates);
      code := code + [Step(KeyValue(position) + 1)] + lines;
      assert groups[..k + 1][..k] == groups[..k];
      k := k + 1;
    }
    assert groups[..k] == groups;
    code := code + [MeasureAll];
  }

  /** The forEach of generateCode that fills the Map from position to gates. */
  method GroupByPosition(sorted: seq<UiGate>) returns (groups: seq<Group>)
    ensures groups == Grouped(sorted)
  {
    groups := [];
    var i := 0;
    while i < |sorted|
      invariant 0 <= i <= |sorted|
      invariant groups == Grouped(sorted[..i])
    {
      var gate := sorted[i];
      var j := IndexOfKey(groups, gate.position);
      if j == |groups| {
        groups := groups + [(gate.position, [])];
        assert [] + [gate] == [gate];
      }
      groups := groups[j := (groups[j].0, groups[j].1 + [gate])];
      assert sorted[..i + 1][..i] == sorted[..i];
      i := i + 1;
    }
    assert sorted[..i] == sorted;
  }

  /** The inner loop of generateCode over one position's gates. */
  method EmitGroup(gates: seq<UiGate>) returns (lines: seq<Line>)
    ensures lines == Emitted(gates)
  {
    lines := [];
    var m := 0;
    while m < |gates|
      invariant 0 <= m <= |gates|
      invariant lines == Emitted(gates[..m])
    {
      var gateCode := GateCode(gates[m]);
      if gateCode.Some? {
        lines := lines + [Emit(gateCode.value)];
      }
      assert gates[..m + 1][..m] == gates[..m];
      m := m + 1;
    }
    assert gates[..m] == gates;
  }

  // ---------------------------------------------------------------------------
  // Layout of the generated program
  // ---------------------------------------------------------------------------

  /** On a placed circuit the groups carry set positions, in strictly ascending order. */
  lemma CodeGroupsOrdered(c: seq<UiGate>)
    requires Placed(c)
    ensures forall j :: 0 <= j < |Groups(c)| ==> Groups(c)[j].0.Some?
    ensures forall a, b :: 0 <= a < b < |Groups(c)| ==> Groups(c)[a].0.value < Groups(c)[b].0.value
  {
    var sorted := SortByPosition(c);
    SortPermutes(c);
    PermutedPlaced(sorted, c);
    SortAscending(c);
    GroupedSome(sorted);
    GroupedAscending(sorted);
  }

  /** Every position that occurs in the circuit is a group's key. */
  lemma CodeGroupsCoverPositions(c: seq<UiGate>)
    ensures forall i :: 0 <= i < |c| ==> c[i].position in Keys(Groups(c))
  {
    var sorted := SortByPosition(c);
    var g := Groups(c);
    SortPermutes(c);
    GroupedKeys(sorted);
    forall i | 0 <= i < |c|
      ensures c[i].position in Keys(g)
    {
      assert c[i] in multiset(sorted);
      var k :| 0 <= k < |sorted| && sorted[k] == c[i];
      assert PositionsOf(sorted)[k] == c[i].position;
    }
  }

  /** Every group's key is a position that occurs in the circuit. */
  lemma CodeGroupsFromPositions(c: seq<UiGate>)
    ensures forall j :: 0 <= j < |Groups(c)| ==> Groups(c)[j].0 in PositionsOf(c)
  {
    var sorted := SortByPosition(c);
    SortPermutes(c);
    GroupedKeys(sorted);
    PermutedPositions(sorted, c);
  }

  /** Two arrangements of the same gates have the same positions. */
  lemma PermutedPositions(a: seq<UiGate>, b: seq<UiGate>)
    requires multiset(a) == multiset(b)
    ensures forall p :: p in PositionsOf(a) ==> p in PositionsOf(b)
  {
    forall p | p in PositionsOf(a)
      ensures p in PositionsOf(b)
    {
      var k :| 0 <= k < |a| && PositionsOf(a)[k] == p;
      assert a[k] in multiset(b);
      var i :| 0 <= i < |b| && b[i] == a[k];
      assert PositionsOf(b)[i] == p;
    }
  }

  /** The groups' positions are exactly the positions that occur in the circuit. */
  lemma CodeGroupsCover(c: seq<UiGate>)
    ensures forall i :: 0 <= i < |c| ==> c[i].position in Keys(Groups(c))
    ensures forall j :: 0 <= j < |Groups(c)| ==> Groups(c)[j].0 in PositionsOf(c)
  {
    CodeGroupsCoverPositions(c);
    CodeGroupsFromPositions(c);
  }

  /** Each group holds the gates at its position in circuit order. */
  lemma CodeGroupsContents(c: seq<UiGate>)
    requires Placed(c)
    ensures forall j :: 0 <= j < |Groups(c)| ==> Groups(c)[j].1 == Select(c, AtPosition(Groups(c)[j].0))
  {
    var sorted := SortByPosition(c);
    GroupedContents(sorted);
    forall j | 0 <= j < |Groups(c)|
      ensures Groups(c)[j].1 == Select(c, AtPosition(Groups(c)[j].0))
    {
      SortStable(c, Groups(c)[j].0);
    }
  }

  /** The step numbers of the headers, in the order they appear. */
  function StepNumbers(lines: seq<Line>): seq<int> {
    if lines == [] then []
    else StepNumbers(lines[..|lines| - 1]) + (if lines[|lines| - 1].Step? then [lines[|lines| - 1].number] else [])
  }

  lemma {:induction false} StepNumbersAppend(a: seq<Line>, b: seq<Line>)
    ensures StepNumbers(a + b) == StepNumbers(a) + StepNumbers(b)
    decreases |b|
  {
    if b == [] {
      assert a + b == a;
    } else {
      StepNumbersAppend(a, b[..|b| - 1]);
      assert (a + b)[..|a + b| - 1] == a + b[..|b| - 1];
    }
  }

  lemma {:induction false} EmittedNoSteps(gates: seq<UiGate>)
    ensures StepNumbers(Emitted(gates)) == []
  {
    if gates != [] {
      var last := gates[|gates| - 1];
      EmittedNoSteps(gates[..|gates| - 1]);
      StepNumbersAppend(Emitted(gates[..|gates| - 1]), if GateCode(last).Some? then [Emit(GateCode(last).value)] else []);
    }
  }

  /** The header numbers of a program whose groups have the given keys. */
  function StepsFor(groups: seq<Group>): (ns: seq<int>)
    ensures |ns| == |groups| && forall j :: 0 <= j < |groups| ==> ns[j] == KeyValue(groups[j].0) + 1
  {
    seq(|groups|, j requires 0 <= j < |groups| => KeyValue(groups[j].0) + 1)
  }

  /** Body writes exactly one header per group, numbered position + 1, in group order. */
  lemma {:induction false} BodySteps(groups: seq<Group>)
    ensures StepNumbers(Body(groups)) == StepsFor(groups)
  {
    if groups != [] {
      var init, last := groups[..|groups| - 1], groups[|groups| - 1];
      BodySteps(init);
      var header := [Step(KeyValue(last.0) + 1)];
      assert Body(groups) == Body(init) + header + Emitted(last.1);
      StepNumbersAppend(Body(init) + header, Emitted(last.1));
      StepNumbersAppend(Body(init), header);
      EmittedNoSteps(last.1);
      assert StepNumbers(header) == [KeyValue(last.0) + 1] by {
        assert header[..0] == [];
      }
      StepsForSnoc(groups);
    }
  }

  lemma StepsForSnoc(groups: seq<Group>)
    requires groups != []
    ensures StepsFor(groups) == StepsFor(groups[..|groups| - 1]) + [KeyValue(groups[|groups| - 1].0) + 1]
  {
  }

  /** The whole program's headers are those of its body. */
  lemma CodeStepsAreBody(c: seq<UiGate>, numQubits: int)
    ensures StepNumbers(CodeOf(c, numQubits)) == StepsFor(Groups(c))
  {
    var head := [Title(CircuitName(c)), Declare(numQubits, numQubits)];
    BodySteps(Groups(c));
    StepNumbersAppend(head + Body(Groups(c)), [MeasureAll]);
    StepNumbersAppend(head, Body(Groups(c)));
    assert StepNumbers([MeasureAll]) == [] by {
      assert [MeasureAll][..0] == [];
    }
    assert StepNumbers(head) == [] by {
      assert head[..1] == [Title(CircuitName(c))];
      assert head[..1][..0] == [];
    }
  }

  /** The position of every gate, read as a number. */
  function PosValues(c: seq<UiGate>): (ps: seq<int>)
    ensures |ps| == |c| && forall i :: 0 <= i < |c| ==> ps[i] == Pos(c[i])
  {
    seq(|c|, i requires 0 <= i < |c| => Pos(c[i]))
  }

  /** The header numbers ascend strictly. */
  lemma StepsAscend(c: seq<UiGate>, numQubits: int)
    requires Placed(c)
    ensures var steps := StepNumbers(CodeOf(c, numQubits));
      forall a, b :: 0 <= a < b < |steps| ==> steps[a] < steps[b]
  {
    CodeGroupsOrdered(c);
    CodeStepsAreBody(c, numQubits);
  }

  /** Every position p of the circuit has a header p+1. */
  lemma StepsCover(c: seq<UiGate>, numQubits: int)
    requires Placed(c)
    ensures forall i :: 0 <= i < |c| ==> c[i].position.value + 1 in StepNumbers(CodeOf(c, numQubits))
  {
    CodeGroupsOrdered(c);
    CodeGroupsCover(c);
    CodeStepsAreBody(c, numQubits);
    var g := Groups(c);
    var steps := StepsFor(g);
    forall i | 0 <= i < |c|
      ensures c[i].position.value + 1 in steps
    {
      var j :| 0 <= j < |g| && Keys(g)[j] == c[i].position;
      assert steps[j] == c[i].position.value + 1;
    }
  }

  /** Every header p+1 comes from a position p of the circuit. */
  lemma StepsFromPositions(c: seq<UiGate>, numQubits: int)
    ensures var steps := StepNumbers(CodeOf(c, numQubits));
      forall k :: 0 <= k < |steps| ==> steps[k] - 1 in PosValues(c)
  {
    CodeGroupsCover(c);
    CodeStepsAreBody(c, numQubits);
    var g := Groups(c);
    var steps := StepsFor(g);
    forall k | 0 <= k < |steps|
      ensures steps[k] - 1 in PosValues(c)
    {
      var i :| 0 <= i < |c| && PositionsOf(c)[i] == g[k].0;
      assert PosValues(c)[i] == steps[k] - 1;
    }
  }

  /**
   * The program has one `# Step p+1` header for each distinct position p of
   * the circuit and no other, in strictly ascending order.
   */
  lemma CodeSteps(c: seq<UiGate>, numQubits: int)
    requires Placed(c)
    ensures var steps := StepNumbers(CodeOf(c, numQubits));
      && (forall a, b :: 0 <= a < b < |steps| ==> steps[a] < steps[b])
      && (forall i :: 0 <= i < |c| ==> c[i].position.value + 1 in steps)
      && (forall k :: 0 <= k < |steps| ==> steps[k] - 1 in PosValues(c))
  {
    StepsAscend(c, numQubits);
    StepsCover(c, numQubits);
    StepsFromPositions(c, numQubits);
  }
}
