# A model of the QuantAssist circuit simulator and its bookkeeping

QuantAssist is a browser circuit builder. Gates are placed on a grid of qubits and time steps. The grid is turned into a list of time steps and run on a small state-vector simulator. The simulator's probabilities are shown in the page, and the same circuit can be validated, optimised, stored in a history list, matched against a template gallery and written out as Qiskit code.

This project models that core in Dafny and proves what each part computes.

- **Operator composition** (`Operations`, over `Complex` and `Bits`). This covers `identityMatrix`, `kron`, `matrixVectorMultiply`, `applySingleQubitGate` and `applyTwoQubitGate`. Each loop is a method proved equal to a function, and each function is proved equal to a bit-local update of the state.
  - A single-qubit gate on target t acts on bit t of the basis index. Bit 0 is the least significant.
  - The two-qubit fold is modelled for every pair of indices, not only adjacent ones. Only `high = max` and `low = min` of the two indices matter. The cases are:
    - `high` outside [0, n): the state is returned unchanged.
    - `high = 0`: the operator has 2^(n+1) rows, so the state doubles in length.
    - `low` inside [0, high - 1): the product throws.
    - Any other case, with `high` in [1, n): the 4 x 4 gate acts on bits high and high - 1. This covers `high = low + 1`, a negative `low`, and `control = target`.
- **Gate matrices** (`Gates`). H, X, Z and CNOT have exact entries. H uses a parameter `r` with `r * r == 1/2`. RX, RY and RZ are built from a pair `(cos θ/2, sin θ/2)` with `c² + s² = 1`. The lemmas cover each gate's action and that each gate is undone by its inverse.
- **The CCNOT engine and the circuit driver** (`Simulation`).
  - `applyCCNOT` is a loop of swaps. It is proved to be a permutation and its own inverse. It follows JavaScript's 32-bit shift, so qubit q is bit n-1-q, counted from the other end than in the single-qubit engine.
  - `initialState` is modelled with its range error.
  - `runCircuit` covers every skip, dispatch and catch rule. The write-back of a default rotation angle is returned as a rewritten circuit.
- **The page's translation** (`Quantassist`). `simulateCircuit` turns grid gates into steps and the final state into a map from binary labels to probabilities. `handleDrop` covers CNOT placement.
- **Validation** (`Validation`), **templates and the capped history list** (`Templates`), and **the Qiskit serialiser** (`Qiskit`). These keep their data as datatypes and their loops as methods.
  - Text output is modelled as structured lines and issue records rather than formatted strings.
  - The text helpers they need are in `Text`: `toLowerCase`, `includes`, `toString`, `padStart`.
- **Shared helpers.** `Ui` holds the grid gate record. `Seqs` models `filter` and insertion-ordered maps.
- **The simulator's own tests** (`Scenarios`). The H, X, X-then-Z, RX(π), RY(π) and Bell cases are proved as exact results, together with cases that show the two bit orders disagree.

The model follows the code as written in three places where the code disagrees with itself:

- The comment on `applySingleQubitGate` (src/lib/operations.ts:84) says qubit 0 is the least significant bit, and that function does treat qubit q as bit q from the least significant end. `applyCCNOT` builds its masks as `1 << (numQubits - 1 - q)` (src/lib/simulation.ts:7-9), so there qubit q is bit n-1-q. The simulator's tests (src/lib/tests/simulation_test.ts) do not run CCNOT, so they do not decide between the two orders. Both are modelled as written. The lemma `Scenarios.CcnotMissesXs` shows the result: X on qubits 0 and 1 followed by CCNOT(0, 1, 2) leaves the state unchanged.
- runCircuit checks each target index and warns when it is out of range (src/lib/simulation.ts:68-74), evidently to skip the gate. But the check's `continue` only leaves the check's own loop, so the gate is still applied. `Scenarios.BadTargetStillApplied` shows this.
- The simulator imports and applies a Pauli-Y gate (src/lib/simulation.ts:3), but src/lib/gates.ts has no such export. A Y gate on a target inside [0, n) passes `undefined` to `kron`, which throws; the throw is caught and the state is kept. Any other Y gate is a product with the identity. `Simulation.ApplyMissingGate` models this, and nothing is stated about a Y matrix.

## Model

| member | source | states |
|---|---|---|
| Complex.Units | src/lib/operations.ts:46-76 | [0,0] is neutral for addComplex, [1,0] is neutral for mulComplex, and [0,0] annihilates under mulComplex |
| Complex.MulDistrib | src/lib/operations.ts:46-76 | mulComplex distributes over addComplex |
| Complex.MulAssoc | src/lib/operations.ts:62-76 | mulComplex is associative |
| Complex.Norm2 | src/app/quantassist/page.tsx:225 | re² + im² is never negative |
| Operations.IdentityMatrix | src/lib/operations.ts:3-13 | result is size x size, with [1,0] on the diagonal and [0,0] elsewhere |
| Operations.Kron | src/lib/operations.ts:15-29 | the nested loops build the Kronecker product: \|a\|·\|b\| rows, each \|a[0]\|·\|b[0]\| wide |
| Operations.KronRow | src/lib/operations.ts:19-25 | the inner two loops build exactly row i·\|b\|+j of the product |
| Operations.KronEntry | src/lib/operations.ts:15-29 | entry (i·\|b\|+j, k·\|b[0]\|+l) of the product is a[i][k]·b[j][l] |
| Operations.MatrixVectorMultiply | src/lib/operations.ts:31-44 | one entry per matrix row; entry i is the running sum, from [0,0], of M[i][j]·v[j] over j < \|v\|; throws when a row is shorter than the vector |
| Operations.MatVecTooLong | src/lib/operations.ts:36-40 | a vector longer than a square matrix always makes the product throw |
| Operations.SingleQubitOperator | src/lib/operations.ts:87-95 | the counting-down kron loop builds the 2^n x 2^n operator with the gate at the target and the identity elsewhere |
| Operations.FactorAt | src/lib/operations.ts:90-94 | the factor at position i is the gate when i is the target and the 2 x 2 identity otherwise |
| Operations.ApplySingleQubitGate | src/lib/operations.ts:81-98 | on a state of length 2^n, amplitude k becomes gate[bit t of k][0]·v[k with bit t := 0] + gate[bit t of k][1]·v[k with bit t := 1]; a longer state makes it throw |
| Operations.SingleQubitFold | src/lib/operations.ts:87-97 | for every state of length 2^n, the folded operator times the state equals the bit-local update |
| Operations.SingleOutcome | src/lib/operations.ts:81-98 | the product returns the bit-local update on length 2^n and throws on any longer state |
| Operations.SingleOutside | src/lib/operations.ts:89-95 | a target outside [0, n) makes the operator the identity, so the state is returned as it was |
| Operations.SingleCompose | src/lib/operations.ts:81-98 | two single-qubit gates on the same target act as their matrix product |
| Operations.SingleIdentity | src/lib/operations.ts:81-98 | the identity gate leaves every state as it is |
| Operations.ApplyTwoQubitGate | src/lib/operations.ts:103-129 | the loop's i -= 2 / inserted fold equals the operator function, and on length 2^n its result is the case analysis below |
| Operations.TwoQubitCases | src/lib/operations.ts:110-128 | high outside [0,n): unchanged; high = 0: the product with a 2^(n+1) operator; low inside [0,n) and below high-1: throws; otherwise the gate acts on bits high and high-1, with row index 2·bit_high + bit_low |
| Operations.TwoFoldShape | src/lib/operations.ts:115-126 | the fold produces a square operator whose size is the starting size times 2 for every factor added |
| Operations.TwoQubitSymmetric | src/lib/operations.ts:110-111 | swapping control and target builds the same operator |
| Operations.TwoQubitGrows | src/lib/operations.ts:115-126 | with max(control, target) = 0 the result is twice as long as the state |
| Gates.XFlips | src/lib/gates.ts:16-25 | X on target t moves amplitude k ^ 2^t to k: it swaps each pair |
| Gates.ZPhase | src/lib/gates.ts:27-36 | Z negates exactly the amplitudes whose bit t is set |
| Gates.HSquare | src/lib/gates.ts:5-14 | H·H = I when r² = 1/2 |
| Gates.XSquare | src/lib/gates.ts:16-25 | X·X = I |
| Gates.ZSquare | src/lib/gates.ts:27-36 | Z·Z = I |
| Gates.RxReverse | src/lib/gates.ts:66-79 | RX(-θ)·RX(θ) = I for every unit (cos, sin) pair |
| Gates.RyReverse | src/lib/gates.ts:81-94 | RY(-θ)·RY(θ) = I |
| Gates.RzReverse | src/lib/gates.ts:96-111 | RZ(-θ)·RZ(θ) = I |
| Gates.UndoSingle | src/lib/operations.ts:81-98 | applying g and then h on the same target restores the state whenever h·g = I |
| Gates.GatesUndo | src/lib/gates.ts:5-111 | H, X and Z applied twice, and each rotation followed by its reverse, restore every state |
| Gates.CnotFlips | src/lib/gates.ts:38-63 | CNOT on bits l+1 and l flips bit l of exactly the amplitudes whose bit l+1 is set |
| Gates.CnotTwice | src/lib/gates.ts:38-63 | CNOT applied twice restores every state |
| Simulation.ApplyCcnot | src/lib/simulation.ts:5-26 | the swap loop over a copy of the state computes the CCNOT function; when a swap would write past the end or the state is longer than 2^31, the outcome is marked as unmodelled |
| Simulation.CcnotMeaning | src/lib/simulation.ts:11-24 | the loop's result is the Toffoli map on the masked bit positions (n-1-q mod 32), or unmodelled as above |
| Simulation.Toffoli | src/lib/simulation.ts:13-22 | the Toffoli map keeps the length and every swap partner lies inside the state |
| Simulation.CcnotPermutes | src/lib/simulation.ts:6-22 | the output has the input's length and is a permutation (same multiset) of it |
| Simulation.CcnotTwice | src/lib/simulation.ts:16-22 | applying CCNOT twice with the same arguments returns the original state |
| Simulation.CcnotInRange | src/lib/simulation.ts:7-24 | for indices in [0,n) with n ≤ 31: output[k] = input[k ^ 2^(n-1-t)] when both control bits n-1-c1 and n-1-c2 of k are set, t differs from both controls; otherwise output[k] = input[k] |
| Simulation.InitialState | src/lib/simulation.ts:28-33 | length 2^n, [1,0] at index 0 and [0,0] elsewhere, for 0 ≤ n ≤ 31; any other n is a range error |
| Simulation.ApplyMissingGate | src/lib/simulation.ts:94-101 | a gate matrix that does not exist throws when the target is inside [0,n) and is the identity product otherwise |
| Simulation.ApplyGate | src/lib/simulation.ts:52-179 | one gate's effect is the gate-step function, and the gate written back carries the default angle when a rotation had none |
| Simulation.RunStepGates | src/lib/simulation.ts:50-180 | the inner loop runs the step's gates in order and returns the step with defaults written in |
| Simulation.RunCircuit | src/lib/simulation.ts:35-183 | the final state is the run function of the circuit; the circuit comes back with every rotation lacking params given π/2 |
| Simulation.RunShape | src/lib/simulation.ts:35-42 | it raises exactly when n is outside [0,31]; a circuit without a gates array, or whose gates are all malformed, returns \|0…0⟩ |
| Simulation.SkippedGates | src/lib/simulation.ts:52-66 | missing or empty gates, gates without type or targets, CNOT with < 2 targets, CCNOT with < 3 and unknown types leave the state as it is |
| Simulation.GateEffects | src/lib/simulation.ts:76-171 | on length 2^n, each single-qubit type is the bit-local update of its matrix on targets[0], Y keeps the state, CNOT is the two-qubit case analysis, CCNOT is the CCNOT function |
| Simulation.CnotAdjacent | src/lib/simulation.ts:146-158 | a CNOT on adjacent qubits is the bit-local CNOT of the pair |
| Simulation.CnotHigherControls | src/lib/simulation.ts:146-158 | for adjacent qubits the higher index is the control whichever order the targets are given in: amplitude k takes v[k ^ 2^low] when bit high of k is set |
| Simulation.CnotEntry | src/lib/simulation.ts:146-158 | the same fact for one amplitude k |
| Simulation.CnotAtZeroDoubles | src/lib/simulation.ts:146-158 | a CNOT where the larger of its two targets is 0 doubles the length of the state |
| Simulation.CnotApartIgnored | src/lib/simulation.ts:146-158 | a CNOT on two in-range qubits that are not adjacent throws and is caught, so the state is unchanged |
| Simulation.LongStateStuck | src/lib/simulation.ts:176-179 | once the state is longer than 2^n, every single-qubit gate throws and is caught, so the state stays |
| Simulation.ExtraTargetsIgnored | src/lib/simulation.ts:78-171 | targets after the ones a gate uses have no effect |
| Simulation.DefaultSameStep | src/lib/simulation.ts:110-145 | writing the default angle back is idempotent and does not change what the gate does |
| Simulation.RewriteKeepsRun | src/lib/simulation.ts:110-145 | running the rewritten circuit gives the same result, so a second run of RunCircuit's output agrees with the first |
| Simulation.NothingApplies | src/lib/simulation.ts:44-66 | steps whose gates are all malformed leave the state unchanged |
| Scenarios.StartTwo | src/lib/simulation.ts:28-33 | two qubits start as [1,0,0,0] |
| Scenarios.HadamardTest | src/lib/tests/simulation_test.ts:7-14 | H on \|0⟩ gives [r, r] |
| Scenarios.XTest | src/lib/tests/simulation_test.ts:34-41 | X on \|0⟩ gives [0, 1] |
| Scenarios.XThenZTest | src/lib/tests/simulation_test.ts:16-23 | X then Z gives [0, -1] |
| Scenarios.RxTest | src/lib/tests/simulation_test.ts:43-50 | RX(π) on \|0⟩ gives [0, -i] |
| Scenarios.RyTest | src/lib/tests/simulation_test.ts:25-32 | RY(π) on \|0⟩ gives [0, 1] |
| Scenarios.BellCnot | src/lib/tests/simulation_test.ts:52-61 | CNOT with targets [1, 0] maps [a, 0, b, 0] to [a, 0, 0, b] |
| Scenarios.BellTest | src/lib/tests/simulation_test.ts:52-61 | H on qubit 1 then CNOT(1, 0) on two qubits gives [r, 0, 0, r] |
| Scenarios.HadamardOnHigh | src/lib/operations.ts:81-98 | H on qubit 1 of \|00⟩ moves weight to index 2, bit 1 counted from the least significant end |
| Scenarios.BadTargetStillApplied | src/lib/simulation.ts:69-74 | an H whose second target is out of range is still applied on its first target |
| Scenarios.XOnBasis | src/lib/gates.ts:16-25 | X on target t maps basis state i to basis state i ^ 2^t |
| Scenarios.CcnotOnThree | src/lib/simulation.ts:5-26 | CCNOT(0, 1, 2) on three qubits swaps amplitudes 6 and 7 only |
| Scenarios.CcnotKeepsThree | src/lib/simulation.ts:7-9 | CCNOT(0, 1, 2) leaves basis state 3 unchanged |
| Scenarios.CcnotMissesXs | src/lib/simulation.ts:7-9 | X on qubits 0 and 1 sets bits 0 and 1, which CCNOT(0, 1, 2) does not read, so the run ends in basis state 3 |
| Scenarios.CcnotFlipsHighBits | src/lib/simulation.ts:7-22 | CCNOT(0, 1, 2) maps basis state 6 to basis state 7 |
| Validation.ValidateGate | src/lib/circuit-validation.ts:68-153 | never a warning or suggestion; at most one error, tagged with the gate id; no error exactly when the gate is complete, of a known type and has in-range, distinct indices; an incomplete gate gets only the missing-properties error; an unknown type gets only the unknown-type error |
| Validation.QubitChecks | src/lib/circuit-validation.ts:107-150 | single-qubit types err iff the qubit is absent or outside [0,n); the exact error for each failing check: missing qubit; out-of-range qubit, carrying the kind, the index and n, and tagged with that qubit; a CNOT's missing index, then its out-of-range index, then the same qubit twice. CCNOT is never reported |
| Validation.ValidateStructure | src/lib/circuit-validation.ts:155-183 | one error exactly when there is a CNOT and n < 2; one info suggestion exactly when there is no MEASURE; no warnings |
| Validation.OptimizationTips | src/lib/circuit-validation.ts:185-203 | one tip per adjacent pair with equal type, qubit and position, then the Hadamard tip when there are more than two H gates |
| Validation.PairTipsCount | src/lib/circuit-validation.ts:188-195 | the pair tips number exactly the duplicate adjacent pairs |
| Validation.UsedQubitsIff | src/lib/circuit-validation.ts:214-219 | a qubit is used iff some gate names it as qubit, control or target |
| Validation.CollectUsedQubits | src/lib/circuit-validation.ts:214-219 | the forEach fills the set of exactly those qubits |
| Validation.MaxPosition | src/lib/circuit-validation.ts:213 | defined iff every gate has a position; then it is ≥ 0, bounds every position and, when positive, is attained |
| Validation.ComplexityBands | src/lib/circuit-validation.ts:222-225 | the complexity label is monotone in the length; Simple iff ≤ 5 gates, Complex iff > 20 |
| Validation.CreateValidationResult | src/lib/circuit-validation.ts:205-241 | isValid iff there are no errors; totalGates is the length; depth is max(0, max position) + 1 ≥ 1 and is defined iff every gate has a position; width is the number of used qubits |
| Validation.ValidateCircuit | src/lib/circuit-validation.ts:35-66 | the result is the empty-circuit error, or the per-gate issues then the structure issues then the tips, gathered into one result |
| Validation.GateIssuesQuiet | src/lib/circuit-validation.ts:50-55 | the per-gate pass adds no warnings or suggestions and at most one error per gate |
| Validation.GateErrorsIff | src/lib/circuit-validation.ts:50-55 | the per-gate pass reports nothing iff every gate is acceptable |
| Validation.ValidationMeaning | src/lib/circuit-validation.ts:35-66 | valid iff the circuit is non-empty, every gate is acceptable and no CNOT is used with n < 2; never a warning; one suggestion iff there is no MEASURE |
| Validation.EmptyCircuitResult | src/lib/circuit-validation.ts:41-47 | an empty circuit yields exactly the one empty-circuit error, no tips and statistics (0, depth 1, width 0, Simple) |
| Validation.IncompleteGateOnce | src/lib/circuit-validation.ts:87-95 | a lone gate with falsy id, empty type or no position yields the missing-properties error for that gate, followed by the two-qubit error exactly when it is a CNOT on fewer than 2 qubits, and no other error |
| Validation.Kept | src/lib/circuit-validation.ts:249-259 | the filter keeps no more gates than it was given, and keeps one equal to the last gate |
| Validation.GetOptimizedCircuit | src/lib/circuit-validation.ts:243-267 | savings = originalGates - optimizedGates = the number of duplicate adjacent pairs = the number of suggestions; optimizedGates is the length of the kept list |
| Validation.OptimizeStep | src/lib/circuit-validation.ts:249-258 | how the kept list, the removal messages and the counter change at each index |
| Validation.RemovalsCount | src/lib/circuit-validation.ts:249-259 | one removal message per duplicate adjacent pair |
| Validation.KeptNoRepeats | src/lib/circuit-validation.ts:249-259 | no two adjacent kept gates are the same, and the tips and the removals are equal in number |
| Validation.KeptStable | src/lib/circuit-validation.ts:249-259 | a list without adjacent duplicates is kept whole, so optimising twice changes nothing more |
| Templates.TemplateIdsDistinct | src/lib/circuit-templates.ts:27-222 | no two gallery templates share an id |
| Templates.TemplatesWellFormed | src/lib/circuit-templates.ts:27-222 | every template has difficulty in 1..5, at least one qubit, every index inside [0, qubits), every gate placed at a position ≥ 0, and distinct gate ids |
| Templates.BasicTemplatesNumbered | src/lib/circuit-templates.ts:29-115 | the superposition, measurement, Pauli, Bell and interference templates number their gates 1, 2, … with every index inside their qubit count and every position ≥ 0 |
| Templates.AdvancedTemplatesNumbered | src/lib/circuit-templates.ts:116-221 | the same for the coin-flip, Grover, Fourier, VQE and QAOA templates |
| Templates.FilterKeeps | src/lib/circuit-templates.ts:224-239 | a template filter returns the order-preserving subsequence of exactly the templates that pass |
| Templates.ByCategoryKeeps | src/lib/circuit-templates.ts:224-226 | getTemplatesByCategory keeps exactly the templates of that category, in gallery order |
| Templates.ByDifficultyKeeps | src/lib/circuit-templates.ts:228-230 | getTemplatesByDifficulty keeps exactly those with difficulty ≤ the bound, in order |
| Templates.SearchInKeeps | src/lib/circuit-templates.ts:232-239 | over any template list, search keeps a template iff the lowercased query is a substring of its lowercased name, description or a tag |
| Templates.SearchKeeps | src/lib/circuit-templates.ts:232-239 | the same for the gallery |
| Templates.SearchInEmpty | src/lib/circuit-templates.ts:232-239 | the empty query keeps every template of any list |
| Templates.SearchEmpty | src/lib/circuit-templates.ts:232-239 | the empty query returns the whole gallery |
| Templates.SearchInIgnoresCase | src/lib/circuit-templates.ts:233 | over any list, a query and its lowercase form select the same templates |
| Templates.SearchIgnoresCase | src/lib/circuit-templates.ts:233 | the same for the gallery |
| Templates.EntryName | src/lib/circuit-templates.ts:251 | a non-empty name is kept; otherwise the name is "Circuit " followed by decimal digits, with no leading zero, that read back as k+1, where k is the prior length |
| Templates.Pushed | src/lib/circuit-templates.ts:258-262 | the new entry is first, the previous entries follow in order, and the length is min(prior + 1, 50) |
| Templates.PushedBounded | src/lib/circuit-templates.ts:244-262 | the history never exceeds 50 entries, and below the cap nothing is dropped |
| Templates.DeletedKeeps | src/lib/circuit-templates.ts:280-285 | deleting keeps exactly the entries with another id, in order |
| Templates.DeleteAbsent | src/lib/circuit-templates.ts:280-285 | deleting an id no entry has changes nothing |
| Templates.CircuitHistoryManager.constructor | src/lib/circuit-templates.ts:242-244 | the manager starts from whatever the storage slot holds |
| Templates.CircuitHistoryManager.SaveCircuit | src/lib/circuit-templates.ts:246-268 | stores the pushed list read through getHistory: the new entry (a copy of the circuit, its name and description) first, the old entries after it, at most 50 |
| Templates.CircuitHistoryManager.DeleteCircuit | src/lib/circuit-templates.ts:280-288 | stores the history without the entries carrying that id |
| Templates.CircuitHistoryManager.ClearHistory | src/lib/circuit-templates.ts:290-296 | removes the slot, after which getHistory returns [] |
| Qiskit.AngleOf | src/lib/qiskit-generator.ts:123-133 | a falsy theta (absent or 0) becomes π/2; any other theta is kept |
| Qiskit.GateCode | src/lib/qiskit-generator.ts:97-142 | no line exactly when a CNOT lacks control or target or a CCNOT lacks one of its three indices; H/X/Y/Z and MEASURE lines name the qubit; a CNOT line is cx(control, target) and a CCNOT line ccx(control, control2, target); a rotation keeps its axis and qubit, and prints a truthy theta as itself and π/2 otherwise; unknown types give the unknown-type comment |
| Qiskit.CircuitName | src/lib/qiskit-generator.ts:144-159 | each name holds exactly when its rule is the first in the ordered table to match |
| Qiskit.SortPermutes | src/lib/qiskit-generator.ts:32 | the sort is a permutation of the circuit |
| Qiskit.SortAscending | src/lib/qiskit-generator.ts:32 | the sorted list is in ascending order of position |
| Qiskit.SortStable | src/lib/qiskit-generator.ts:32 | the sort keeps the original order among gates at the same position |
| Qiskit.GroupedKeys | src/lib/qiskit-generator.ts:35-41 | the map's keys are distinct, every gate's position is a key, and every key is some gate's position |
| Qiskit.GroupedContents | src/lib/qiskit-generator.ts:35-41 | each key's list holds exactly the gates at that position, in order |
| Qiskit.GroupedAscending | src/lib/qiskit-generator.ts:35-41 | grouping a list sorted by position gives keys in strictly ascending order |
| Qiskit.GroupByPosition | src/lib/qiskit-generator.ts:35-41 | the forEach fills the map as the grouping function says |
| Qiskit.EmitGroup | src/lib/qiskit-generator.ts:47-52 | one line per gate that has code, in order |
| Qiskit.WriteProgram | src/lib/qiskit-generator.ts:21-59 | title, QuantumCircuit(n, n), one step header and the gate lines for each group, then measure_all |
| Qiskit.CodeGroupsOrdered | src/lib/qiskit-generator.ts:32-44 | the groups come in strictly ascending position order |
| Qiskit.CodeGroupsCover | src/lib/qiskit-generator.ts:32-41 | every gate's position is a group, and every group is some gate's position |
| Qiskit.CodeGroupsContents | src/lib/qiskit-generator.ts:32-41 | each group holds the gates at its position in their original order |
| Qiskit.CodeSteps | src/lib/qiskit-generator.ts:43-53 | the step headers are strictly ascending, one per distinct position, each p+1 |
| Qiskit.TypeCountsTotal | src/lib/qiskit-generator.ts:162-174 | the per-type counts sum to the circuit length |
| Qiskit.GenerateExplanation | src/lib/qiskit-generator.ts:161-180 | the explanation's total gates equals the length and equals the sum of the per-type counts |
| Qiskit.GenerateCode | src/lib/qiskit-generator.ts:11-95 | the code declares QuantumCircuit(n, n) second and ends with measure_all; name, explanation and imports are those of the generator |
| Quantassist.MaxPosition | src/app/quantassist/page.tsx:181 | the reduce gives a value ≥ 0 that bounds every position and is 0 or attained |
| Quantassist.StepCount | src/app/quantassist/page.tsx:181-182 | max(0, max position) + 1 steps, or none when a gate has no position |
| Quantassist.TargetsOf | src/app/quantassist/page.tsx:192-200 | CNOT gets [control, target] when both are defined; any other type gets [qubit]; otherwise no targets |
| Quantassist.Backend | src/app/quantassist/page.tsx:187-205 | the backend gate has the type and targets above; exactly RX and RY get params π/2 |
| Quantassist.BuildSteps | src/app/quantassist/page.tsx:186-210 | the loop's steps are the filling function's |
| Quantassist.FilledThrows | src/app/quantassist/page.tsx:207-209 | the pushes throw iff some gate with targets has no step at its position |
| Quantassist.FilledContents | src/app/quantassist/page.tsx:186-210 | step p holds the backend forms of exactly the targeted gates at position p, in circuit order |
| Quantassist.FilledEmpty | src/app/quantassist/page.tsx:207-217 | every step is empty iff no gate has targets |
| Quantassist.PlacedMisplaced | src/app/quantassist/page.tsx:181-208 | with every position given, only a negative position can miss its step |
| Quantassist.StepsFromGrid | src/app/quantassist/page.tsx:184-210 | every backend gate comes from a non-MEASURE targeted grid gate at that step |
| Quantassist.StateKeyValue | src/app/quantassist/page.tsx:227 | the padded binary label reads back as the index |
| Quantassist.StateKeyInjective | src/app/quantassist/page.tsx:227 | two indices have the same label iff they are equal |
| Quantassist.StateKeyShape | src/app/quantassist/page.tsx:227 | labels are made of '0' and '1' and have exactly n characters for indices below 2^n |
| Quantassist.Probabilities | src/app/quantassist/page.tsx:223-230 | the forEach fills the probability map |
| Quantassist.ProbabilityMapMeans | src/app/quantassist/page.tsx:223-230 | index i's label is a key iff re² + im² > 0.001, and then maps to that value; every key is some index's label |
| Quantassist.SimulateCircuit | src/app/quantassist/page.tsx:179-233 | the result is cleared, shown, failed or not modelled exactly as the simulation function says |
| Quantassist.SimulationFails | src/app/quantassist/page.tsx:179-233 | with every position given, it fails iff a targeted non-MEASURE gate has a negative position, or the run is reached with n outside [0,31] |
| Quantassist.SimulationCleared | src/app/quantassist/page.tsx:214-217 | the result is cleared, without running, iff the steps build and no non-MEASURE gate has targets |
| Quantassist.Dropped | src/app/quantassist/page.tsx:240-252 | a dropped CNOT has control = the qubit, target = 1 if the qubit is 0 else 0, and no qubit; any other type keeps the qubit |
| Quantassist.DroppedTargets | src/app/quantassist/page.tsx:246-252 | a dropped gate always has targets; a CNOT's two targets differ |
| Quantassist.Builder.constructor | src/app/quantassist/page.tsx:234-255 | the builder starts with no gates and nothing dragged |
| Quantassist.Builder.DragStart | src/app/quantassist/page.tsx:235-237 | remembers the dragged gate type and leaves the circuit as it is |
| Quantassist.Builder.HandleDrop | src/app/quantassist/page.tsx:238-255 | without a dragged gate nothing changes; otherwise the new gate is appended and the drag is cleared |
| Ui.CountPositive | src/lib/circuit-validation.ts:164-173 | counting a type gives a positive number iff some gate has that type (`some`) |
| Text.Lower | src/lib/circuit-templates.ts:233-237 | same length, each character lowercased, no upper-case letter left |
| Text.LowerIdempotent | src/lib/circuit-templates.ts:233-237 | lowercasing twice is lowercasing once |
| Text.ContainsIff | src/lib/circuit-templates.ts:235-237 | includes holds iff the needle occurs at some index of the text |
| Text.ContainsEmpty | src/lib/circuit-templates.ts:232-239 | every text includes the empty string |
| Text.ToBase | src/app/quantassist/page.tsx:227 | the base-2 or base-10 text has at least one digit, only digits of that base and no leading zero |
| Text.ToBaseValue | src/app/quantassist/page.tsx:227 | the digits read back as the number |
| Text.DecimalValue | src/lib/circuit-templates.ts:250-251 | the decimal text of an integer reads back as it, with a leading '-' for negatives |
| Text.PadStart | src/app/quantassist/page.tsx:227 | a shorter text is left-filled to the length and ends with the original |
| Text.ZerosValue | src/app/quantassist/page.tsx:227 | leading zeros do not change the value |
| Seqs.SelectPositions | src/lib/circuit-templates.ts:224-239 | filter keeps exactly the positions whose element passes, in increasing order |
| Seqs.SelectMembers | src/lib/circuit-templates.ts:224-239 | an element is kept iff it occurs and passes |
| Seqs.IndexOfKeyFound | src/lib/qiskit-generator.ts:37-40 | Map.has finds a key iff it is one of the keys |

## Left out

- Floating point. Amplitudes are exact reals. 1/√2 is the parameter `r`, and rotations take (cos θ/2, sin θ/2) instead of θ, so cos, sin, √2, rounding and the tests' 1e-6 tolerance are not modelled. The default angle π/2 is the pair (r, r).
- Unitarity of the whole run is not proved. The model proves that each gate is undone by its inverse, and that CCNOT is a permutation.
- Simulation.ApplyCcnot: a swap that would write past the end of the array, which the code allows, is not followed. So is a state longer than 2^31. Both are outcomes marked unmodelled. JavaScript would grow the array with holes; the model does not.
- Simulation.InitialState: numQubits is an integer. Fractional counts are not modelled.
- Console warnings and errors are left out.
- Simulation.ApplyMissingGate: the import of the missing Y export is taken to bind `undefined`, as a transpile-only bundler does. Under a type-checking build or native ES modules the simulation module would not load at all, and that outcome is not modelled.
- The `typeof` and `Array.isArray` guards in addComplex, mulComplex and runCircuit's target check are left out. So are validateGate's null-or-non-object gate guard (circuit-validation.ts:77-85) and the `!circuit` half of validateCircuit's empty test (circuit-validation.ts:41). With typed values none of them fire.
- Validation.ValidateGate: a gate is always a record, so the "Invalid gate detected" branch for a null or non-object gate (circuit-validation.ts:77-85) is not modelled.
- Validation.ValidateCircuit: the circuit is always an array of gate records. A null circuit, which pushes the empty-circuit error and then throws at `circuit.length` (circuit-validation.ts:41, 213), is not modelled. Neither is a circuit holding a null gate, which throws in the structure, tip or statistics passes (circuit-validation.ts:164, 191, 197, 213).
- A null or empty-object gate is one `Missing` value. JSON-level shapes of a gate are limited to an optional type, optional targets and optional params.
- Simulation.RunCircuit: runCircuit writes `gate.params` into the caller's objects. The model returns the rewritten circuit instead of modelling aliasing.
- Validation and Qiskit messages are records (`Problem`, `Issue`, `Line`), not formatted text. The suggestion strings and the long fixed text after measure_all are left out.
- Validation.CreateValidationResult: the efficiency statistic is floating point and is left out. A gate without a position makes depth NaN in the code; the model gives no depth then.
- Qiskit.GenerateCode: it needs every gate to have a position, as the declared type demands, because the sort's comparator is undefined on a missing one. `Pos` reads a missing position as 0 only inside the sort and grouping lemmas.
- Qiskit.GenerateExplanation: the per-type counts are kept in first-seen order, which is how `Object.entries` orders ordinary string keys. Gate types are assumed to be neither integer-like strings such as "0" nor Object.prototype property names such as "constructor" or "__proto__". For integer-like keys, `Object.entries` lists them first in numeric order. For prototype names, `acc[gate.type] || 0` reads the inherited member, so the count is not a number, or `__proto__` is never listed. The model covers neither case. The explanation text is not built.
- Qiskit.TypeCountsTotal: the counts sum to the circuit length only under the same assumption on gate types. For an Object.prototype property name the code's count is not a number.
- getInstallationInstructions and getAdvancedCode are fixed text around generateCode and are left out.
- Templates: the prose fields (learning objectives, explanation, real-world use) are not carried. Template circuits keep only their gates, ids and qubit counts.
- Templates.ByDifficultyKeeps: the bound is an integer.
- The history's storage is an `Option` field standing for localStorage. JSON encoding, storage exceptions and `new Date()` timestamps are left out, and `Date.now()` is a parameter. The stored circuit is a value, which is what the spread copy gives.
- Text.Lower: toLowerCase is modelled for ASCII letters only.
- Text.ToBase: only bases 2 and 10 are modelled, which are the bases the code uses.
- Quantassist.SimulateCircuit: React state setters are treated as taking effect at once. The result is a datatype standing for `setSimulationResult`. An exception out of the click handler is `Failed`.
- Quantassist.StateKeyShape: a CNOT where the larger of its two qubits is 0 doubles the state. So the n-character key length is stated only for indices below 2^n.
- Quantassist.Builder: only the dragged gate's type is modelled. The rest of the palette entry is display data.
- Positions and qubit indices are integers. Fractional values are not modelled.
- Everything else on the page, its JSX and processUserQuery are outside this model. So are the components, the API routes, the AI services and the environment script.
