/**
 * CircuitValidator (src/lib/circuit-validation.ts): per-gate checks,
 * whole-circuit checks, optimisation tips, statistics, and the duplicate
 * count of getOptimizedCircuit. Messages are kept as the fact they report
 * (Problem) with the values their text interpolates.
 */
module Validation {
  import opened Common
  import opened Ui

  datatype Level = Error | Warning | Info

  /** What an entry says; the suggestion text follows from it. */
  datatype Problem =
    | EmptyCircuit
    | MissingProperties
    | UnknownType(kind: string)
    | MissingQubit(kind: string, numQubits: int)
    | BadQubit(kind: string, qubit: int, numQubits: int)
    | CnotMissingQubits
    | CnotBadIndices(numQubits: int)
    | CnotSameQubit
    | CnotNeedsTwoQubits
    | NoMeasurement

  /** A ValidationError object: its type, its message and the optional gateId and qubit. */
  datatype Issue = Issue(level: Level, problem: Problem, gateId: Option<int>, qubit: Option<int>)

  /** The three lists one check returns. */
  datatype Issues = Issues(errors: seq<Issue>, warnings: seq<Issue>, suggestions: seq<Issue>)

  datatype Complexity = Simple | Intermediate | Moderate | Complex

  /** circuitStats without efficiency; depth is None where Math.max gives NaN. */
  datatype Stats = Stats(totalGates: nat, depth: Option<int>, width: nat, complexity: Complexity)

  /** An optimisation tip string. */
  datatype Tip = Combine(kind: string, qubit: Option<int>) | Hadamards

  datatype ValidationResult = ValidationResult(
    isValid: bool,
    errors: seq<Issue>,
    warnings: seq<Issue>,
    suggestions: seq<Issue>,
    optimizationTips: seq<Tip>,
    circuitStats: Stats)

  /** The removal note getOptimizedCircuit records for a duplicate. */
  datatype Removal = RemovedDuplicate(kind: string)

  datatype CircuitOptimization = CircuitOptimization(
    originalGates: nat, optimizedGates: int, savings: int, suggestions: seq<Removal>)

  const ValidTypes: seq<string> := ["H", "X", "Y", "Z", "CNOT", "CCNOT", "RX", "RY", "RZ", "MEASURE"]
  const SingleTypes: seq<string> := ["H", "X", "Y", "Z", "RX", "RY", "RZ", "MEASURE"]

  // ---------------------------------------------------------------------------
  // validateGate (src/lib/circuit-validation.ts:68-153)
  // ---------------------------------------------------------------------------

  /** A falsy id (0), an empty type or an undefined position. */
  predicate Incomplete(g: UiGate) {
    g.id == 0 || g.kind == "" || g.position.None?
  }

  predicate InRange(q: int, n: int) {
    0 <= q < n
  }

  /** What a gate must satisfy to pass validateGate. */
  predicate GateOk(g: UiGate, n: int) {
    && !Incomplete(g)
    && g.kind in ValidTypes
    && (g.kind in SingleTypes ==> g.qubit.Some? && InRange(g.qubit.value, n))
    && (g.kind == "CNOT" ==>
          g.control.Some? && g.target.Some? && InRange(g.control.value, n) && InRange(g.target.value, n)
          && g.control.value != g.target.value)
  }

  function ErrorAt(g: UiGate, p: Problem): Issue {
    Issue(Error, p, Some(g.id), None)
  }

  function SingleQubitErrors(g: UiGate, n: int): seq<Issue> {
    if g.kind !in SingleTypes then []
    else if g.qubit.None? then [ErrorAt(g, MissingQubit(g.kind, n))]
    else if g.qubit.value < 0 || g.qubit.value >= n then [Issue(Error, BadQubit(g.kind, g.qubit.value, n), Some(g.id), g.qubit)]
    else []
  }

  function CnotErrors(g: UiGate, n: int): seq<Issue> {
    if g.kind != "CNOT" then []
    else if g.control.None? || g.target.None? then [ErrorAt(g, CnotMissingQubits)]
    else if g.control.value < 0 || g.control.value >= n || g.target.value < 0 || g.target.value >= n then
      [ErrorAt(g, CnotBadIndices(n))]
    else if g.control.value == g.target.value then [ErrorAt(g, CnotSameQubit)]
    else []
  }

  /**
   * validateGate. At most one error comes back for any gate (the type lists
   * do not overlap), no warnings and no suggestions, and no error exactly
   * when GateOk holds.
   */
  function ValidateGate(g: UiGate, n: int): (r: Issues)
    ensures r.warnings == [] && r.suggestions == []
    ensures |r.errors| <= 1
    ensures r.errors == [] <==> GateOk(g, n)
    ensures forall e :: e in r.errors ==> e.level == Error && e.gateId == Some(g.id)
    ensures Incomplete(g) ==> r.errors == [ErrorAt(g, MissingProperties)]
    ensures !Incomplete(g) && g.kind !in ValidTypes ==> r.errors == [ErrorAt(g, UnknownType(g.kind))]
  {
    if Incomplete(g) then Issues([ErrorAt(g, MissingProperties)], [], [])
    else
      var unknown := if g.kind !in ValidTypes then [ErrorAt(g, UnknownType(g.kind))] else [];
      Issues(unknown + SingleQubitErrors(g, n) + CnotErrors(g, n), [], [])
  }

  /**
   * A single-qubit type is reported exactly when its qubit is undefined or
   * outside [0, n); a CNOT exactly when a qubit is missing, out of range, or
   * the control is the target, with the first failing check named.
   */
  lemma QubitChecks(g: UiGate, n: int)
    requires !Incomplete(g)
    ensures g.kind in SingleTypes ==>
      (ValidateGate(g, n).errors != [] <==> g.qubit.None? || !InRange(g.qubit.value, n))
    ensures g.kind in SingleTypes && g.qubit.None? ==> ValidateGate(g, n).errors == [ErrorAt(g, MissingQubit(g.kind, n))]
    ensures g.kind in SingleTypes && g.qubit.Some? && !InRange(g.qubit.value, n) ==>
      ValidateGate(g, n).errors == [Issue(Error, BadQubit(g.kind, g.qubit.value, n), Some(g.id), Some(g.qubit.value))]
    ensures g.kind == "CNOT" && (g.control.None? || g.target.None?) ==>
      ValidateGate(g, n).errors == [ErrorAt(g, CnotMissingQubits)]
    ensures g.kind == "CNOT" && g.control.Some? && g.target.Some? && (!InRange(g.control.value, n) || !InRange(g.target.value, n)) ==>
      ValidateGate(g, n).errors == [ErrorAt(g, CnotBadIndices(n))]
    ensures g.kind == "CNOT" && g.control.Some? && g.target.Some? && g.control.value == g.target.value && InRange(g.target.value, n) ==>
      ValidateGate(g, n).errors == [ErrorAt(g, CnotSameQubit)]
    ensures g.kind == "CCNOT" ==> ValidateGate(g, n).errors == []
  {
  }

  // ---------------------------------------------------------------------------
  // validateCircuitStructure (src/lib/circuit-validation.ts:155-183)
  // ---------------------------------------------------------------------------

  /** The whole-circuit checks: CNOT on fewer than two qubits, and no measurement. */
  function ValidateStructure(c: seq<UiGate>, n: int): (r: Issues)
    ensures r.warnings == []
    ensures |r.errors| <= 1 && |r.suggestions| <= 1
    ensures r.errors != [] <==> CountKind(c, "CNOT") > 0 && n < 2
    ensures r.suggestions != [] <==> CountKind(c, "MEASURE") == 0
    ensures forall s :: s in r.suggestions ==> s.level == Info && s.problem == NoMeasurement
  {
    CountPositive(c, "CNOT");
    CountPositive(c, "MEASURE");
    var errors := if HasKind(c, "CNOT") && n < 2 then [Issue(Error, CnotNeedsTwoQubits, None, None)] else [];
    var suggestions := if !HasKind(c, "MEASURE") then [Issue(Info, NoMeasurement, None, None)] else [];
    Issues(errors, [], suggestions)
  }

  // ---------------------------------------------------------------------------
  // generateOptimizationTips (src/lib/circuit-validation.ts:185-203)
  // ---------------------------------------------------------------------------

  /** The (type, qubit, position) comparison both optimisers use. */
  predicate Same(a: UiGate, b: UiGate) {
    a.kind == b.kind && a.qubit == b.qubit && a.position == b.position
  }

  /** The indices i >= 1 whose gate repeats gate i-1, counted. */
  function Duplicates(c: seq<UiGate>): (k: nat)
    ensures k <= |c|
  {
    if |c| <= 1 then 0
    else Duplicates(c[..|c| - 1]) + (if Same(c[|c| - 2], c[|c| - 1]) then 1 else 0)
  }

  /** One tip per adjacent pair (c[i], c[i+1]) that repeats, in order. */
  function PairTips(c: seq<UiGate>): seq<Tip> {
    if |c| <= 1 then []
    else PairTips(c[..|c| - 1]) + (if Same(c[|c| - 2], c[|c| - 1]) then [Combine(c[|c| - 2].kind, c[|c| - 2].qubit)] else [])
  }

  function TipsSpec(c: seq<UiGate>): seq<Tip> {
    PairTips(c) + (if CountKind(c, "H") > 2 then [Hadamards] else [])
  }

  /** generateOptimizationTips: the pair scan and then the Hadamard count. */
  method OptimizationTips(circuit: seq<UiGate>) returns (tips: seq<Tip>)
    ensures tips == TipsSpec(circuit)
  {
    tips := PairScan(circuit);
    var hGates := CountHadamards(circuit);
    if hGates > 2 {
      tips := tips + [Hadamards];
    }
  }

  /** The first loop of generateOptimizationTips: one tip per neighbouring pair with the same type, qubit and position. */
  method PairScan(circuit: seq<UiGate>) returns (tips: seq<Tip>)
    ensures tips == PairTips(circuit)
  {
    tips := [];
    if |circuit| == 0 {
      return;
    }
    var i := 0;
    while i < |circuit| - 1
      invariant 0 <= i <= |circuit| - 1
      invariant tips == PairTips(circuit[..i + 1])
    {
      var current, next := circuit[i], circuit[i + 1];
      assert circuit[..i + 2][..i + 1] == circuit[..i + 1];
      if current.kind == next.kind && current.qubit == next.qubit && current.position == next.position {
        tips := tips + [Combine(current.kind, current.qubit)];
      }
      i := i + 1;
    }
    assert circuit[..i + 1] == circuit;
  }

  /** The Hadamard count of generateOptimizationTips. */
  method CountHadamards(circuit: seq<UiGate>) returns (hGates: nat)
    ensures hGates == CountKind(circuit, "H")
  {
    hGates := 0;
    var k := 0;
    while k < |circuit|
      invariant 0 <= k <= |circuit|
      invariant hGates == CountKind(circuit[..k], "H")
    {
      assert circuit[..k + 1][..k] == circuit[..k];
      if circuit[k].kind == "H" {
        hGates := hGates + 1;
      }
      k := k + 1;
    }
    assert circuit[..k] == circuit;
  }

  /** Each repeating pair gives one tip, naming the first gate of the pair. */
  lemma {:induction false} PairTipsCount(c: seq<UiGate>)
    ensures |PairTips(c)| == Duplicates(c)
    ensures forall t :: t in PairTips(c) ==> t.Combine?
  {
    if |c| > 1 {
      PairTipsCount(c[..|c| - 1]);
    }
  }

  // ---------------------------------------------------------------------------
  // createValidationResult (src/lib/circuit-validation.ts:205-241)
  // ---------------------------------------------------------------------------

  /** The defined qubit, control and target indices of one gate (control2 is not read). */
  function Fields(g: UiGate): set<int> {
    (if g.qubit.Some? then {g.qubit.value} else {})
    + (if g.control.Some? then {g.control.value} else {})
    + (if g.target.Some? then {g.target.value} else {})
  }

  /** The usedQubits set after the forEach. */
  function UsedQubits(c: seq<UiGate>): set<int> {
    if c == [] then {} else UsedQubits(c[..|c| - 1]) + Fields(c[|c| - 1])
  }

  /** An index is used exactly when some gate names it. */
  lemma {:induction false} UsedQubitsIff(c: seq<UiGate>, q: int)
    ensures q in UsedQubits(c) <==> exists i :: 0 <= i < |c| && q in Fields(c[i])
  {
    if c != [] {
      var init := c[..|c| - 1];
      UsedQubitsIff(init, q);
      if q in UsedQubits(init) {
        var i :| 0 <= i < |init| && q in Fields(init[i]);
        assert c[i] == init[i];
      }
      if q !in Fields(c[|c| - 1]) && exists i :: 0 <= i < |c| && q in Fields(c[i]) {
        var i :| 0 <= i < |c| && q in Fields(c[i]);
        assert init[i] == c[i];
      }
    }
  }

  /**
   * maxPosition: Math.max over the positions and 0, which is NaN (None) as
   * soon as one position is undefined, and 0 for the empty circuit.
   */
  function MaxPosition(c: seq<UiGate>): (m: Option<int>)
    ensures m.Some? <==> Placed(c)
    ensures m.Some? ==> m.value >= 0 && forall i :: 0 <= i < |c| ==> c[i].position.value <= m.value
    ensures m.Some? && m.value > 0 ==> exists i :: 0 <= i < |c| && c[i].position.value == m.value
  {
    if c == [] then Some(0)
    else
      var init := MaxPosition(c[..|c| - 1]);
      var last := c[|c| - 1];
      assert forall i :: 0 <= i < |c| - 1 ==> c[..|c| - 1][i] == c[i];
      if init.None? || last.position.None? then None
      else if last.position.value > init.value then Some(last.position.value)
      else init
  }

  function ComplexityOf(length: nat): Complexity {
    if length > 20 then Complex
    else if length > 10 then Moderate
    else if length > 5 then Intermediate
    else Simple
  }

  function Rank(x: Complexity): nat {
    match x
    case Simple => 0
    case Intermediate => 1
    case Moderate => 2
    case Complex => 3
  }

  /** A longer circuit is never rated simpler, and the bands start above 5, 10 and 20 gates. */
  lemma ComplexityBands(a: nat, b: nat)
    ensures a <= b ==> Rank(ComplexityOf(a)) <= Rank(ComplexityOf(b))
    ensures ComplexityOf(a) == Simple <==> a <= 5
    ensures ComplexityOf(a) == Complex <==> a > 20
  {
  }

  function ResultOf(errors: seq<Issue>, warnings: seq<Issue>, suggestions: seq<Issue>, tips: seq<Tip>, c: seq<UiGate>): ValidationResult {
    var m := MaxPosition(c);
    ValidationResult(errors == [], errors, warnings, suggestions, tips,
      Stats(|c|, if m.Some? then Some(m.value + 1) else None, |UsedQubits(c)|, ComplexityOf(|c|)))
  }

  /** createValidationResult: fills the set of used indices, then assembles the statistics. */
  method CreateValidationResult(errors: seq<Issue>, warnings: seq<Issue>, suggestions: seq<Issue>, tips: seq<Tip>, circuit: seq<UiGate>)
    returns (r: ValidationResult)
    ensures r == ResultOf(errors, warnings, suggestions, tips, circuit)
    ensures r.isValid <==> errors == []
    ensures r.circuitStats.totalGates == |circuit|
    ensures r.circuitStats.depth.Some? <==> Placed(circuit)
    ensures r.circuitStats.depth.Some? ==> r.circuitStats.depth.value >= 1
  {
    var used := CollectUsedQubits(circuit);
    var maxPosition := MaxPosition(circuit);
    var complexity := Simple;
    if |circuit| > 20 {
      complexity := Complex;
    } else if |circuit| > 10 {
      complexity := Moderate;
    } else if |circuit| > 5 {
      complexity := Intermediate;
    }
    assert complexity == ComplexityOf(|circuit|);
    var depth := if maxPosition.Some? then Some(maxPosition.value + 1) else None;
    r := ValidationResult(|errors| == 0, errors, warnings, suggestions, tips,
      Stats(|circuit|, depth, |used|, complexity));
  }

  /** The forEach over the gates that collects every defined qubit, control and target. */
  method CollectUsedQubits(circuit: seq<UiGate>) returns (used: set<int>)
    ensures used == UsedQubits(circuit)
    ensures forall q :: q in used <==> exists i :: 0 <= i < |circuit| && q in Fields(circuit[i])
  {
    used := {};
    var i := 0;
    while i < |circuit|
      invariant 0 <= i <= |circuit|
      invariant used == UsedQubits(circuit[..i])
    {
      var gate := circuit[i];
      assert circuit[..i + 1][..i] == circuit[..i];
      var before := used;
      if gate.qubit.Some? {
        used := used + {gate.qubit.value};
      }
      if gate.control.Some? {
        used := used + {gate.control.value};
      }
      if gate.target.Some? {
        used := used + {gate.target.value};
      }
      assert used == before + Fields(gate);
      i := i + 1;
    }
    assert circuit[..i] == circuit;
    forall q
      ensures q in used <==> exists i :: 0 <= i < |circuit| && q in Fields(circuit[i])
    {
      UsedQubitsIff(circuit, q);
    }
  }

  // ---------------------------------------------------------------------------
  // validateCircuit (src/lib/circuit-validation.ts:35-66)
  // ---------------------------------------------------------------------------

  /** The per-gate lists concatenated in circuit order. */
  function GateIssues(c: seq<UiGate>, n: int): Issues {
    if c == [] then Issues([], [], [])
    else
      var init, last := GateIssues(c[..|c| - 1], n), ValidateGate(c[|c| - 1], n);
      Issues(init.errors + last.errors, init.warnings + last.warnings, init.suggestions + last.suggestions)
  }

  function ValidationSpec(c: seq<UiGate>, n: int): ValidationResult {
    if c == [] then ResultOf([Issue(Error, EmptyCircuit, None, None)], [], [], [], c)
    else
      var g, s := GateIssues(c, n), ValidateStructure(c, n);
      ResultOf(g.errors + s.errors, g.warnings + s.warnings, g.suggestions + s.suggestions, TipsSpec(c), c)
  }

  /** validateCircuit: gate checks in order, then the structure checks, then the tips. */
  method ValidateCircuit(circuit: seq<UiGate>, numQubits: int) returns (r: ValidationResult)
    ensures r == ValidationSpec(circuit, numQubits)
  {
    var errors: seq<Issue> := [];
    var warnings: seq<Issue> := [];
    var suggestions: seq<Issue> := [];
    if |circuit| == 0 {
      errors := errors + [Issue(Error, EmptyCircuit, None, None)];
      r := CreateValidationResult(errors, warnings, suggestions, [], circuit);
      return;
    }
    var index := 0;
    while index < |circuit|
      invariant 0 <= index <= |circuit|
      invariant Issues(errors, warnings, suggestions) == GateIssues(circuit[..index], numQubits)
    {
      assert circuit[..index + 1][..index] == circuit[..index];
      var gateErrors := ValidateGate(circuit[index], numQubits);
      errors := errors + gateErrors.errors;
      warnings := warnings + gateErrors.warnings;
      suggestions := suggestions + gateErrors.suggestions;
      index := index + 1;
    }
    assert circuit[..index] == circuit;
    var circuitIssues := ValidateStructure(circuit, numQubits);
    errors := errors + circuitIssues.errors;
    warnings := warnings + circuitIssues.warnings;
    suggestions := suggestions + circuitIssues.suggestions;
    var tips := OptimizationTips(circuit);
    r := CreateValidationResult(errors, warnings, suggestions, tips, circuit);
  }

  /** The per-gate lists hold only errors, at most one per gate. */
  lemma {:induction false} GateIssuesQuiet(c: seq<UiGate>, n: int)
    ensures GateIssues(c, n).warnings == [] && GateIssues(c, n).suggestions == []
    ensures |GateIssues(c, n).errors| <= |c|
  {
    if c != [] {
      GateIssuesQuiet(c[..|c| - 1], n);
    }
  }

  /** Every gate passes. */
  predicate AllOk(c: seq<UiGate>, n: int) {
    forall i :: 0 <= i < |c| ==> GateOk(c[i], n)
  }

  /** No per-gate error exactly when every gate passes GateOk. */
  lemma {:induction false} GateErrorsIff(c: seq<UiGate>, n: int)
    ensures GateIssues(c, n).errors == [] <==> AllOk(c, n)
  {
    if c != [] {
      var init := c[..|c| - 1];
      GateErrorsIff(init, n);
      var last := ValidateGate(c[|c| - 1], n);
      assert GateIssues(c, n).errors == GateIssues(init, n).errors + last.errors;
      assert last.errors == [] <==> GateOk(c[|c| - 1], n);
      AllOkSnoc(c, n);
    }
  }

  /** Every gate of a non-empty circuit passes exactly when the prefix does and the last gate does. */
  lemma AllOkSnoc(c: seq<UiGate>, n: int)
    requires c != []
    ensures AllOk(c, n) <==> AllOk(c[..|c| - 1], n) && GateOk(c[|c| - 1], n)
  {
    var init := c[..|c| - 1];
    assert forall i :: 0 <= i < |init| ==> init[i] == c[i];
  }

  /**
   * The verdict: a circuit is valid exactly when it is non-empty, every gate
   * passes, and no CNOT sits in a circuit of fewer than two qubits; warnings
   * are always empty; the one suggestion is the missing measurement.
   */
  lemma ValidationMeaning(c: seq<UiGate>, n: int)
    ensures ValidationSpec(c, n).isValid <==> ValidationSpec(c, n).errors == []
    ensures ValidationSpec(c, n).isValid <==>
      |c| > 0 && AllOk(c, n) && !(CountKind(c, "CNOT") > 0 && n < 2)
    ensures ValidationSpec(c, n).warnings == []
    ensures |c| > 0 ==> (|ValidationSpec(c, n).suggestions| == 1 <==> CountKind(c, "MEASURE") == 0)
    ensures |c| > 0 ==> |ValidationSpec(c, n).suggestions| <= 1
    ensures ValidationSpec(c, n).circuitStats.totalGates == |c|
  {
    if c != [] {
      GateIssuesQuiet(c, n);
      GateErrorsIff(c, n);
    }
  }

  /** The empty circuit: exactly one error, no other entries, and the statistics of nothing. */
  lemma EmptyCircuitResult(n: int)
    ensures ValidationSpec([], n).errors == [Issue(Error, EmptyCircuit, None, None)]
    ensures ValidationSpec([], n).warnings == [] && ValidationSpec([], n).suggestions == []
    ensures ValidationSpec([], n).optimizationTips == []
    ensures ValidationSpec([], n).circuitStats == Stats(0, Some(1), 0, Simple)
  {
  }

  /** A lone incomplete gate gets the missing-properties error, and an incomplete CNOT on fewer than two qubits also the structure error. */
  lemma IncompleteGateOnce(g: UiGate, n: int)
    requires Incomplete(g)
    ensures ValidationSpec([g], n).errors ==
      [ErrorAt(g, MissingProperties)] + (if g.kind == "CNOT" && n < 2 then [Issue(Error, CnotNeedsTwoQubits, None, None)] else [])
  {
    assert [g][..0] == [];
    assert CountKind([g], "CNOT") == (if g.kind == "CNOT" then 1 else 0);
    assert GateIssues([g], n).errors == [ErrorAt(g, MissingProperties)];
    if g.kind == "CNOT" && n < 2 {
      assert ValidateStructure([g], n).errors == [Issue(Error, CnotNeedsTwoQubits, None, None)];
    } else {
      assert ValidateStructure([g], n).errors == [];
    }
  }

  // ---------------------------------------------------------------------------
  // getOptimizedCircuit (src/lib/circuit-validation.ts:243-267)
  // ---------------------------------------------------------------------------

  /** The filtered circuit: gate 0, and every later gate that does not repeat its predecessor. */
  function Kept(c: seq<UiGate>): (k: seq<UiGate>)
    ensures |k| <= |c|
    ensures |c| > 0 ==> |k| > 0 && Same(k[|k| - 1], c[|c| - 1])
  {
    if |c| <= 1 then c
    else
      var init := Kept(c[..|c| - 1]);
      if Same(c[|c| - 2], c[|c| - 1]) then init else init + [c[|c| - 1]]
  }

  function Removals(c: seq<UiGate>): seq<Removal> {
    if |c| <= 1 then []
    else Removals(c[..|c| - 1]) + (if Same(c[|c| - 2], c[|c| - 1]) then [RemovedDuplicate(c[|c| - 1].kind)] else [])
  }

  /** getOptimizedCircuit: the filter with its running counter. */
  method GetOptimizedCircuit(circuit: seq<UiGate>) returns (r: CircuitOptimization)
    ensures r.originalGates == |circuit|
    ensures r.savings == Duplicates(circuit) && r.savings == |r.suggestions|
    ensures r.optimizedGates == |Kept(circuit)| && r.optimizedGates == r.originalGates - r.savings
    ensures r.suggestions == Removals(circuit)
  {
    var originalGates := |circuit|;
    var optimizedGates := originalGates;
    var suggestions: seq<Removal> := [];
    var optimized: seq<UiGate> := [];
    var index := 0;
    while index < |circuit|
      invariant 0 <= index <= |circuit|
      invariant optimized == Kept(circuit[..index])
      invariant suggestions == Removals(circuit[..index])
      invariant optimizedGates == originalGates - Duplicates(circuit[..index])
      invariant |optimized| == index - Duplicates(circuit[..index])
    {
      var gate := circuit[index];
      OptimizeStep(circuit, index);
      if index == 0 {
        optimized := optimized + [gate];
      } else {
        var prev := circuit[index - 1];
        if Same(prev, gate) {
          optimizedGates := optimizedGates - 1;
          suggestions := suggestions + [RemovedDuplicate(gate.kind)];
        } else {
          optimized := optimized + [gate];
        }
      }
      index := index + 1;
    }
    assert circuit[..index] == circuit;
    RemovalsCount(circuit);
    r := CircuitOptimization(originalGates, optimizedGates, originalGates - optimizedGates, suggestions);
  }

  /** How one more gate extends the filtered circuit, the removal notes and the count. */
  lemma OptimizeStep(c: seq<UiGate>, index: nat)
    requires index < |c|
    ensures index == 0 ==> Kept(c[..1]) == [c[0]] && Removals(c[..1]) == [] && Duplicates(c[..1]) == 0
    ensures index > 0 && Same(c[index - 1], c[index]) ==>
      && Kept(c[..index + 1]) == Kept(c[..index])
      && Removals(c[..index + 1]) == Removals(c[..index]) + [RemovedDuplicate(c[index].kind)]
      && Duplicates(c[..index + 1]) == Duplicates(c[..index]) + 1
    ensures index > 0 && !Same(c[index - 1], c[index]) ==>
      && Kept(c[..index + 1]) == Kept(c[..index]) + [c[index]]
      && Removals(c[..index + 1]) == Removals(c[..index])
      && Duplicates(c[..index + 1]) == Duplicates(c[..index])
  {
    assert c[..index + 1][..index] == c[..index];
  }

  lemma {:induction false} RemovalsCount(c: seq<UiGate>)
    ensures |Removals(c)| == Duplicates(c)
  {
    if |c| > 1 {
      RemovalsCount(c[..|c| - 1]);
    }
  }

  /** No two neighbours of a sequence repeat each other. */
  predicate NoRepeats(k: seq<UiGate>) {
    forall i :: 0 < i < |k| ==> !Same(k[i - 1], k[i])
  }

  /**
   * The filtered circuit has no repeating neighbours (a run of repeats keeps
   * its first gate), and the tips of validateCircuit count the same repeats
   * getOptimizedCircuit removes.
   */
  lemma {:induction false} KeptNoRepeats(c: seq<UiGate>)
    ensures NoRepeats(Kept(c))
    ensures |PairTips(c)| == |Removals(c)|
  {
    PairTipsCount(c);
    RemovalsCount(c);
    if |c| > 1 {
      var init := c[..|c| - 1];
      KeptNoRepeats(init);
      assert init[|init| - 1] == c[|c| - 2];
    }
  }

  /** Removing the repeats does not change the circuit's distinct runs: Kept is idempotent. */
  lemma {:induction false} KeptStable(k: seq<UiGate>)
    requires NoRepeats(k)
    ensures Kept(k) == k
  {
    if |k| > 1 {
      var init := k[..|k| - 1];
      assert NoRepeats(init) by {
        forall i | 0 < i < |init|
          ensures !Same(init[i - 1], init[i])
        {
          assert init[i - 1] == k[i - 1] && init[i] == k[i];
        }
      }
      KeptStable(init);
      assert !Same(k[|k| - 2], k[|k| - 1]);
      assert init + [k[|k| - 1]] == k;
    }
  }
}
