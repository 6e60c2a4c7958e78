/**
 * The circuit builder page (src/app/quantassist/page.tsx): simulateCircuit,
 * which turns the positioned gates of the grid into the time steps
 * runCircuit consumes and turns the final state into a map from binary basis
 * labels to probabilities, and handleDrop, which places a dragged gate.
 */
module Quantassist {
  import opened Common
  import opened Complex
  import opened Bits
  import opened Operations
  import opened Text
  import opened Seqs
  import opened Ui
  import opened Gates
  import opened Simulation

  // ---------------------------------------------------------------------------
  // From grid gates to time steps (src/app/quantassist/page.tsx:179-212)
  // ---------------------------------------------------------------------------

  /** The grid's steps: max(0, largest position) + 1 of them. */
  function MaxPosition(c: seq<UiGate>): (m: int)
    ensures m >= 0
    ensures forall i :: 0 <= i < |c| && c[i].position.Some? ==> c[i].position.value <= m
    ensures m == 0 || exists i :: 0 <= i < |c| && c[i].position == Some(m)
  {
    if c == [] then 0
    else
      var init, last := c[..|c| - 1], c[|c| - 1];
      var m := MaxPosition(init);
      assert forall i :: 0 <= i < |init| ==> init[i] == c[i];
      if last.position.Some? && last.position.value > m then last.position.value else m
  }

  /**
   * The length of the steps array. A gate without a position makes the
   * reduce yield NaN, and an array of NaN + 1 elements has none.
   */
  function StepCount(c: seq<UiGate>): (len: nat)
    ensures Placed(c) ==> len == MaxPosition(c) + 1
    ensures !Placed(c) ==> len == 0
  {
    if Placed(c) then MaxPosition(c) + 1 else 0
  }

  function NotMeasure(g: UiGate): bool {
    g.kind != "MEASURE"
  }

  /** The qubits the backend gate acts on. */
  function TargetsOf(g: UiGate): (t: seq<int>)
    ensures |t| > 0 <==> Targeted(g)
    ensures g.kind == "CNOT" && Targeted(g) ==> t == [g.control.value, g.target.value]
    ensures g.kind != "CNOT" && Targeted(g) ==> t == [g.qubit.value]
  {
    if g.kind == "CNOT" then
      if g.control.Some? && g.target.Some? then [g.control.value, g.target.value] else []
    else if g.qubit.Some? then [g.qubit.value] else []
  }

  /** The gate ends up with targets: both CNOT indices, or the qubit of any other type. */
  predicate Targeted(g: UiGate) {
    if g.kind == "CNOT" then g.control.Some? && g.target.Some? else g.qubit.Some?
  }

  /** The quarter turn pi/2 as a rotation (cos pi/4, sin pi/4), with r for 1/sqrt(2). */
  function HalfPi(r: real): Rot {
    Rot(r, r)
  }

  /** The backend gate built for a grid gate; RX and RY always get the angle pi/2. */
  function Backend(g: UiGate, r: real): (b: RawGate)
    ensures b.Gate? && b.kind == Some(g.kind) && b.targets == Some(TargetsOf(g))
    ensures b.params.Some? <==> g.kind == "RX" || g.kind == "RY"
    ensures b.params.Some? ==> b.params.value == HalfPi(r)
  {
    Gate(Some(g.kind), Some(TargetsOf(g)), if g.kind == "RX" || g.kind == "RY" then Some(HalfPi(r)) else None)
  }

  function BackendAll(s: seq<UiGate>, r: real): (b: seq<RawGate>)
    ensures |b| == |s| && forall j :: 0 <= j < |s| ==> b[j] == Backend(s[j], r)
  {
    seq(|s|, j requires 0 <= j < |s| => Backend(s[j], r))
  }

  /** steps[position].push throws when position is not an index of the array. */
  predicate Misplaced(g: UiGate, len: nat) {
    Targeted(g) && !(g.position.Some? && 0 <= g.position.value < len)
  }

  /** The steps after the for loop over the frontend gates, or Threw when a push hits undefined. */
  function Filled(gates: seq<UiGate>, len: nat, r: real): (o: Outcome<seq<seq<RawGate>>>)
    ensures o.Returned? ==> |o.value| == len
  {
    if gates == [] then Returned(seq(len, p => []))
    else
      var prev := Filled(gates[..|gates| - 1], len, r);
      var g := gates[|gates| - 1];
      if prev.Threw? then Threw
      else if !Targeted(g) then prev
      else if Misplaced(g, len) then Threw
      else
        var p := g.position.value;
        Returned(prev.value[p := prev.value[p] + [Backend(g, r)]])
  }

  /** The loop of simulateCircuit that pushes each gate into its step. */
  method BuildSteps(frontend: seq<UiGate>, len: nat, r: real) returns (o: Outcome<seq<seq<RawGate>>>)
    ensures o == Filled(frontend, len, r)
  {
    var steps: seq<seq<RawGate>> := seq(len, p => []);
    for i := 0 to |frontend|
      invariant Filled(frontend[..i], len, r) == Returned(steps)
    {
      assert frontend[..i + 1][..i] == frontend[..i];
      var gate := frontend[i];
      var targets := TargetsOf(gate);
      if |targets| > 0 {
        if !(gate.position.Some? && 0 <= gate.position.value < len) {
          ThrewStays(frontend, len, r, i + 1);
          assert frontend[..|frontend|] == frontend;
          return Threw;
        }
        var p := gate.position.value;
        steps := steps[p := steps[p] + [Backend(gate, r)]];
      }
    }
    assert frontend[..|frontend|] == frontend;
    o := Returned(steps);
  }

  /** Once a push has thrown, the loop does not come back. */
  lemma {:induction false} ThrewStays(gates: seq<UiGate>, len: nat, r: real, k: nat)
    requires k <= |gates| && Filled(gates[..k], len, r).Threw?
    ensures Filled(gates, len, r).Threw?
    decreases |gates| - k
  {
    if k < |gates| {
      assert gates[..k + 1][..k] == gates[..k];
      ThrewStays(gates, len, r, k + 1);
    } else {
      assert gates[..k] == gates;
    }
  }

  /** The loop throws exactly when some gate with targets has no step to go to. */
  lemma {:induction false} FilledThrows(gates: seq<UiGate>, len: nat, r: real)
    ensures Filled(gates, len, r).Threw? <==> exists i :: 0 <= i < |gates| && Misplaced(gates[i], len)
  {
    if gates != [] {
      var init, g := gates[..|gates| - 1], gates[|gates| - 1];
      FilledThrows(init, len, r);
      if exists i :: 0 <= i < |init| && Misplaced(init[i], len) {
        var i :| 0 <= i < |init| && Misplaced(init[i], len);
        assert gates[i] == init[i];
      }
      if exists i :: 0 <= i < |gates| && Misplaced(gates[i], len) {
        var i :| 0 <= i < |gates| && Misplaced(gates[i], len);
        if i < |init| {
          assert init[i] == gates[i];
        }
      }
    }
  }

  /** The gates that land in step p. */
  function LandsAt(p: int): UiGate -> bool {
    (g: UiGate) => Targeted(g) && g.position == Some(p)
  }

  lemma BackendAllSnoc(s: seq<UiGate>, x: UiGate, r: real)
    ensures BackendAll(s + [x], r) == BackendAll(s, r) + [Backend(x, r)]
  {
  }

  /**
   * Step p holds the backend gates of exactly the gates with targets at
   * position p, in their order in the circuit.
   */
  lemma {:induction false} FilledContents(gates: seq<UiGate>, len: nat, r: real, p: nat)
    requires Filled(gates, len, r).Returned? && p < len
    ensures Filled(gates, len, r).value[p] == BackendAll(Select(gates, LandsAt(p)), r)
  {
    if gates != [] {
      var init, g := gates[..|gates| - 1], gates[|gates| - 1];
      FilledContents(init, len, r, p);
      if LandsAt(p)(g) {
        BackendAllSnoc(Select(init, LandsAt(p)), g, r);
      }
    }
  }

  /** Every step is empty (backendCircuit.gates.every(step => step.length === 0)). */
  predicate AllEmpty(steps: seq<seq<RawGate>>) {
    forall p :: 0 <= p < |steps| ==> |steps[p]| == 0
  }

  /** The steps are all empty exactly when no gate has targets. */
  lemma {:induction false} FilledEmpty(gates: seq<UiGate>, len: nat, r: real)
    requires Filled(gates, len, r).Returned?
    ensures AllEmpty(Filled(gates, len, r).value) <==> forall i :: 0 <= i < |gates| ==> !Targeted(gates[i])
  {
    if gates != [] {
      var init, g := gates[..|gates| - 1], gates[|gates| - 1];
      FilledEmpty(init, len, r);
      var before, after := Filled(init, len, r).value, Filled(gates, len, r).value;
      if Targeted(g) {
        var p := g.position.value;
        assert |after[p]| > 0;
      } else {
        assert forall i :: 0 <= i < |init| ==> init[i] == gates[i];
      }
      if !AllEmpty(before) {
        var q :| 0 <= q < |before| && |before[q]| != 0;
        assert |after[q]| >= |before[q]|;
      }
    }
  }

  /** On a placed grid every position has its step; only a negative one is missing. */
  lemma PlacedMisplaced(c: seq<UiGate>, g: UiGate)
    requires Placed(c) && g in c
    ensures Misplaced(g, StepCount(c)) <==> Targeted(g) && g.position.value < 0
  {
  }

  // ---------------------------------------------------------------------------
  // From the final state to the probability map (src/app/quantassist/page.tsx:219-232)
  // ---------------------------------------------------------------------------

  /** Probabilities at or below this are left out of the map. */
  const Threshold: real := 0.001

  /** index.toString(2).padStart(numQubits, '0'). */
  function StateKey(i: nat, n: nat): string {
    PadStart(ToBase(i, 2), n, '0')
  }

  /** A key reads back, in binary, as its basis index. */
  lemma StateKeyValue(i: nat, n: nat)
    ensures ValueOf(StateKey(i, n), 2) == i
  {
    ToBaseValue(i, 2);
    var s := ToBase(i, 2);
    if |s| < n {
      ZerosValue(n - |s|, s, 2);
    }
  }

  /** Distinct basis indices get distinct keys. */
  lemma StateKeyInjective(i: nat, j: nat, n: nat)
    ensures StateKey(i, n) == StateKey(j, n) <==> i == j
  {
    StateKeyValue(i, n);
    StateKeyValue(j, n);
  }

  lemma {:induction false} PowerOfTwo(n: nat)
    ensures Power(2, n) == Pow2(n)
  {
    if n > 0 {
      PowerOfTwo(n - 1);
    }
  }

  /**
   * Every key is a string of binary digits, and an index of an n-qubit state
   * (n >= 1) gets exactly n of them.
   */
  lemma StateKeyShape(i: nat, n: nat)
    ensures forall k :: 0 <= k < |StateKey(i, n)| ==> StateKey(i, n)[k] == '0' || StateKey(i, n)[k] == '1'
    ensures 1 <= n && i < Pow2(n) ==> |StateKey(i, n)| == n
  {
    if 1 <= n && i < Pow2(n) {
      PowerOfTwo(n);
      LengthBound(i, 2, n);
    }
  }

  /** The object built by setting key(i) to the probability of each amplitude above the threshold. */
  function Tabulated<K>(v: Vector, key: nat -> K): map<K, real> {
    if v == [] then map[]
    else
      var m := Tabulated(v[..|v| - 1], key);
      var p := Norm2(v[|v| - 1]);
      if p > Threshold then m[key(|v| - 1) := p] else m
  }

  function KeyFor(n: nat): nat -> string {
    (i: nat) => StateKey(i, n)
  }

  /** The probabilities object after the forEach over the amplitudes of v. */
  function ProbabilityMap(v: Vector, n: nat): map<string, real> {
    Tabulated(v, KeyFor(n))
  }

  /** The forEach of simulateCircuit over the final state. */
  method Probabilities(v: Vector, n: nat) returns (m: map<string, real>)
    ensures m == ProbabilityMap(v, n)
  {
    m := map[];
    for index := 0 to |v|
      invariant m == Tabulated(v[..index], KeyFor(n))
    {
      assert v[..index + 1][..index] == v[..index];
      var probability := Norm2(v[index]);
      if probability > Threshold {
        m := m[StateKey(index, n) := probability];
      }
    }
    assert v[..|v|] == v;
  }

  /** With distinct keys, each index's key is present exactly when its probability is above the threshold, with that value. */
  lemma {:induction false} TabulatedEntries<K>(v: Vector, key: nat -> K)
    requires forall i, j :: 0 <= i < j < |v| ==> key(i) != key(j)
    ensures forall i :: 0 <= i < |v| ==> (key(i) in Tabulated(v, key) <==> Norm2(v[i]) > Threshold)
    ensures forall i :: 0 <= i < |v| && Norm2(v[i]) > Threshold ==> Tabulated(v, key)[key(i)] == Norm2(v[i])
  {
    if v != [] {
      var init, last := v[..|v| - 1], |v| - 1;
      TabulatedEntries(init, key);
      var m0, p := Tabulated(init, key), Norm2(v[last]);
      assert Tabulated(v, key) == if p > Threshold then m0[key(last) := p] else m0;
      assert key(last) !in m0 by {
        TabulatedKeys(init, key);
      }
      forall i | 0 <= i < |init|
        ensures key(i) in Tabulated(v, key) <==> Norm2(v[i]) > Threshold
        ensures Norm2(v[i]) > Threshold ==> Tabulated(v, key)[key(i)] == Norm2(v[i])
      {
        assert init[i] == v[i];
        assert key(i) != key(last);
      }
    }
  }

  /** Every key is the key of one of the indices. */
  lemma {:induction false} TabulatedKeys<K>(v: Vector, key: nat -> K)
    ensures forall k :: k in Tabulated(v, key) ==> exists i :: 0 <= i < |v| && k == key(i)
  {
    if v != [] {
      var init, last := v[..|v| - 1], |v| - 1;
      TabulatedKeys(init, key);
      forall k | k in Tabulated(v, key)
        ensures exists i :: 0 <= i < |v| && k == key(i)
      {
        if k != key(last) {
          assert k in Tabulated(init, key);
          var i :| 0 <= i < |init| && k == key(i);
        }
      }
    }
  }

  /**
   * The map has a key for a basis index exactly when its probability is
   * above the threshold, with that probability as the value, and no other keys.
   */
  lemma ProbabilityMapMeans(v: Vector, n: nat)
    ensures forall i :: 0 <= i < |v| ==> (StateKey(i, n) in ProbabilityMap(v, n) <==> Norm2(v[i]) > Threshold)
    ensures forall i :: 0 <= i < |v| && Norm2(v[i]) > Threshold ==> ProbabilityMap(v, n)[StateKey(i, n)] == Norm2(v[i])
    ensures forall k :: k in ProbabilityMap(v, n) ==> exists i :: 0 <= i < |v| && k == StateKey(i, n)
  {
    var key := KeyFor(n);
    forall i, j | 0 <= i < j < |v|
      ensures key(i) != key(j)
    {
      StateKeyInjective(i, j, n);
    }
    TabulatedEntries(v, key);
    TabulatedKeys(v, key);
  }

  // ---------------------------------------------------------------------------
  // simulateCircuit (src/app/quantassist/page.tsx:179-232)
  // ---------------------------------------------------------------------------

  /**
   * What simulateCircuit leaves behind: the result set to null, the
   * probability map, an exception (a push onto a missing step, or
   * runCircuit's RangeError for a qubit count outside [0, 31]), or a run this
   * model does not follow.
   */
  datatype Result = Cleared | Shown(probabilities: map<string, real>) | Failed | NotModelled

  /** The circuit object runCircuit is handed. */
  function AsCircuit(steps: seq<seq<RawGate>>): Circuit {
    Circuit(Some(seq(|steps|, p requires 0 <= p < |steps| => Some(steps[p]))))
  }

  function SimulationOf(circuit: seq<UiGate>, numQubits: int, r: real): Result {
    var built := Filled(Select(circuit, NotMeasure), StepCount(circuit), r);
    if built.Threw? then Failed
    else if AllEmpty(built.value) then Cleared
    else
      match RunSpec(AsCircuit(built.value), numQubits, r, HalfPi(r))
      case Raised => Failed
      case Unmodelled => NotModelled
      case Final(state) => Shown(ProbabilityMap(state, numQubits))
  }

  /** simulateCircuit, with r for 1/sqrt(2). */
  method SimulateCircuit(circuit: seq<UiGate>, numQubits: int, r: real) returns (result: Result)
    ensures result == SimulationOf(circuit, numQubits, r)
  {
    var len := StepCount(circuit);
    var frontend := Select(circuit, NotMeasure);
    var built := BuildSteps(frontend, len, r);
    if built.Threw? {
      return Failed;
    }
    var steps := built.value;
    if AllEmpty(steps) {
      return Cleared;
    }
    var run, _ := RunCircuit(AsCircuit(steps), numQubits, r, HalfPi(r));
    if run.Raised? {
      return Failed;
    }
    if run.Unmodelled? {
      return NotModelled;
    }
    RunShape(AsCircuit(steps), numQubits, r, HalfPi(r));
    var probabilities := Probabilities(run.state, numQubits);
    result := Shown(probabilities);
  }

  /**
   * Every gate runCircuit is handed came from a grid gate at that step's
   * position: never a MEASURE, always with targets, and an RX or RY with the
   * angle pi/2.
   */
  lemma StepsFromGrid(circuit: seq<UiGate>, r: real, p: nat, j: nat)
    requires Filled(Select(circuit, NotMeasure), StepCount(circuit), r).Returned?
    requires p < StepCount(circuit)
    requires j < |Filled(Select(circuit, NotMeasure), StepCount(circuit), r).value[p]|
    ensures var b := Filled(Select(circuit, NotMeasure), StepCount(circuit), r).value[p][j];
      exists g :: g in circuit && g.kind != "MEASURE" && Targeted(g) && g.position == Some(p) && b == Backend(g, r)
  {
    var frontend := Select(circuit, NotMeasure);
    var here := Select(frontend, LandsAt(p));
    FilledContents(frontend, StepCount(circuit), r, p);
    var g := here[j];
    SelectMembers(frontend, LandsAt(p), g);
    SelectMembers(circuit, NotMeasure, g);
  }

  /** simulateCircuit fails exactly when a gate with targets has a negative position, or the qubit count is out of range. */
  lemma SimulationFails(circuit: seq<UiGate>, numQubits: int, r: real)
    requires Placed(circuit)
    ensures var result := SimulationOf(circuit, numQubits, r);
      result.Failed? <==>
        (exists i :: 0 <= i < |circuit| && NotMeasure(circuit[i]) && Targeted(circuit[i]) && circuit[i].position.value < 0)
        || (!result.Cleared? && !(0 <= numQubits <= 31))
  {
    var frontend := Select(circuit, NotMeasure);
    var len := StepCount(circuit);
    FilledThrows(frontend, len, r);
    var bad := exists i :: 0 <= i < |circuit| && NotMeasure(circuit[i]) && Targeted(circuit[i]) && circuit[i].position.value < 0;
    if bad {
      var i :| 0 <= i < |circuit| && NotMeasure(circuit[i]) && Targeted(circuit[i]) && circuit[i].position.value < 0;
      SelectMembers(circuit, NotMeasure, circuit[i]);
      var k :| 0 <= k < |frontend| && frontend[k] == circuit[i];
      assert Misplaced(frontend[k], len);
    }
    if exists k :: 0 <= k < |frontend| && Misplaced(frontend[k], len) {
      var k :| 0 <= k < |frontend| && Misplaced(frontend[k], len);
      SelectMembers(circuit, NotMeasure, frontend[k]);
      PlacedMisplaced(circuit, frontend[k]);
      var i :| 0 <= i < |circuit| && circuit[i] == frontend[k];
    }
    var built := Filled(frontend, len, r);
    if built.Returned? && !AllEmpty(built.value) {
      RunShape(AsCircuit(built.value), numQubits, r, HalfPi(r));
    }
  }

  /** The result is cleared exactly when nothing fails and no gate but a MEASURE has targets. */
  lemma SimulationCleared(circuit: seq<UiGate>, numQubits: int, r: real)
    ensures SimulationOf(circuit, numQubits, r).Cleared? <==>
      Filled(Select(circuit, NotMeasure), StepCount(circuit), r).Returned?
      && forall i :: 0 <= i < |circuit| && NotMeasure(circuit[i]) ==> !Targeted(circuit[i])
  {
    var frontend := Select(circuit, NotMeasure);
    var built := Filled(frontend, StepCount(circuit), r);
    if built.Returned? {
      FilledEmpty(frontend, StepCount(circuit), r);
      forall i | 0 <= i < |circuit| && NotMeasure(circuit[i]) && (forall k :: 0 <= k < |frontend| ==> !Targeted(frontend[k]))
        ensures !Targeted(circuit[i])
      {
        SelectMembers(circuit, NotMeasure, circuit[i]);
      }
      forall k | 0 <= k < |frontend| && (forall i :: 0 <= i < |circuit| && NotMeasure(circuit[i]) ==> !Targeted(circuit[i]))
        ensures !Targeted(frontend[k])
      {
        SelectMembers(circuit, NotMeasure, frontend[k]);
      }
      RunShape(AsCircuit(built.value), numQubits, r, HalfPi(r));
    }
  }

  // ---------------------------------------------------------------------------
  // handleDrop (src/app/quantassist/page.tsx:234-255)
  // ---------------------------------------------------------------------------

  /**
   * The gate handleDrop creates. A CNOT takes the dropped qubit as its
   * control, targets qubit 1 when dropped on qubit 0 and qubit 0 otherwise,
   * and has no qubit field.
   */
  function Dropped(kind: string, qubit: int, position: int, id: int): (g: UiGate)
    ensures g.kind == kind && g.position == Some(position) && g.id == id && g.theta.None? && g.control2.None?
    ensures kind == "CNOT" ==> g.qubit.None? && g.control == Some(qubit) && g.target == Some(if qubit == 0 then 1 else 0)
    ensures kind != "CNOT" ==> g.qubit == Some(qubit) && g.control.None? && g.target.None?
  {
    var g := UiGate(id, kind, Some(qubit), None, None, None, Some(position), None);
    if kind == "CNOT" then g.(qubit := None, control := Some(qubit), target := Some(if qubit == 0 then 1 else 0)) else g
  }

  /**
   * A dropped gate always has targets: a CNOT's control and target differ,
   * and any other type acts on the qubit it was dropped on.
   */
  lemma DroppedTargets(kind: string, qubit: int, position: int, id: int)
    ensures Targeted(Dropped(kind, qubit, position, id))
    ensures kind == "CNOT" ==> var t := TargetsOf(Dropped(kind, qubit, position, id));
      |t| == 2 && t[0] == qubit && t[1] != t[0]
    ensures kind != "CNOT" ==> TargetsOf(Dropped(kind, qubit, position, id)) == [qubit]
  {
  }

  /** The page's circuit and the gate being dragged (only its type matters here). */
  class Builder {
    var circuit: seq<UiGate>
    var dragged: Option<string>

    constructor()
      ensures circuit == [] && dragged == None
    {
      circuit := [];
      dragged := None;
    }

    /** handleDragStart. */
    method DragStart(kind: string)
      modifies this
      ensures dragged == Some(kind) && circuit == old(circuit)
    {
      dragged := Some(kind);
    }

    /** handleDrop, with now for Date.now(). */
    method HandleDrop(qubit: int, position: int, now: int)
      modifies this
      ensures old(dragged).None? ==> circuit == old(circuit) && dragged == old(dragged)
      ensures old(dragged).Some? ==> circuit == old(circuit) + [Dropped(old(dragged).value, qubit, position, now)] && dragged == None
      ensures Placed(old(circuit)) ==> Placed(circuit)
    {
      if dragged.None? {
        return;
      }
      var newGate := Dropped(dragged.value, qubit, position, now);
      circuit := circuit + [newGate];
      dragged := None;
    }
  }
}
