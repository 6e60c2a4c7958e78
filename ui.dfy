/**
 * The gate the circuit builder works with (QuantumGate,
 * src/app/quantassist/types.ts:3-11): an id, a type name, the optional qubit
 * indices, a column position on the grid, and an optional angle. The Qiskit
 * generator also reads a second control, control2, which the interface does
 * not declare.
 */
module Ui {
  import opened Common

  datatype UiGate = UiGate(
    id: int,
    kind: string,
    qubit: Option<int>,
    control: Option<int>,
    control2: Option<int>,
    target: Option<int>,
    position: Option<int>,
    theta: Option<real>)

  /** Every gate has a position, as the declared type demands. */
  predicate Placed(c: seq<UiGate>) {
    forall i :: 0 <= i < |c| ==> c[i].position.Some?
  }

  /** How many gates of the circuit have the given type. */
  function CountKind(c: seq<UiGate>, kind: string): (k: nat)
    ensures k <= |c|
  {
    if c == [] then 0
    else CountKind(c[..|c| - 1], kind) + (if c[|c| - 1].kind == kind then 1 else 0)
  }

  /** circuit.some(g => g.type === kind). */
  predicate HasKind(c: seq<UiGate>, kind: string) {
    exists i :: 0 <= i < |c| && c[i].kind == kind
  }

  /** A type occurs exactly when its count is positive. */
  lemma {:induction false} CountPositive(c: seq<UiGate>, kind: string)
    ensures CountKind(c, kind) > 0 <==> HasKind(c, kind)
  {
    if c != [] {
      var init := c[..|c| - 1];
      CountPositive(init, kind);
      if HasKind(init, kind) {
        var i :| 0 <= i < |init| && init[i].kind == kind;
        assert c[i].kind == kind;
      }
      if HasKind(c, kind) && c[|c| - 1].kind != kind {
        var i :| 0 <= i < |c| && c[i].kind == kind;
        assert init[i].kind == kind;
      }
    }
  }
}
