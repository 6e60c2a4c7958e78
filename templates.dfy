/**
 * The built-in circuit templates, the three ways the gallery filters them,
 * and the most-recent-first circuit history capped at 50 entries
 * (src/lib/circuit-templates.ts).
 */
module Templates {
  import opened Common
  import opened Ui
  import opened Text
  import opened Seqs

  datatype Category = Beginner | Intermediate | Advanced | Algorithm | Educational

  /**
   * A template as the gallery reads it. The learning objectives, the long
   * explanation and the real-world note are display text that no operation
   * here reads, so they are not carried.
   */
  datatype Template = Template(
    id: string,
    name: string,
    description: string,
    category: Category,
    difficulty: int,
    qubits: int,
    circuit: seq<UiGate>,
    tags: seq<string>)

  /** A single-qubit gate as the templates write it. */
  function On(id: int, kind: string, qubit: int, position: int): UiGate {
    UiGate(id, kind, Some(qubit), None, None, None, Some(position), None)
  }

  /** A CNOT as the templates write it. */
  function Cx(id: int, control: int, target: int, position: int): UiGate {
    UiGate(id, "CNOT", None, Some(control), None, Some(target), Some(position), None)
  }

  const Superposition := Template(
    "superposition-basic", "Quantum Superposition",
    "Create a qubit in equal superposition of |0\U{27E9} and |1\U{27E9}",
    Beginner, 1, 1,
    [On(1, "H", 0, 0), On(2, "MEASURE", 0, 1)],
    ["superposition", "hadamard", "single-qubit"])

  const Measurement := Template(
    "measurement-basic", "Quantum Measurement",
    "Learn how quantum measurement works",
    Beginner, 1, 1,
    [On(1, "MEASURE", 0, 0)],
    ["measurement", "single-qubit", "basics"])

  const Pauli := Template(
    "pauli-gates", "Pauli Gates (X, Y, Z)",
    "Explore the fundamental Pauli gates",
    Beginner, 2, 1,
    [On(1, "X", 0, 0), On(2, "Y", 0, 1), On(3, "Z", 0, 2), On(4, "MEASURE", 0, 3)],
    ["pauli-gates", "single-qubit", "rotations"])

  const Bell := Template(
    "bell-state", "Bell State (Entanglement)",
    "Create quantum entanglement between two qubits",
    Intermediate, 3, 2,
    [On(1, "H", 0, 0), Cx(2, 0, 1, 1), On(3, "MEASURE", 0, 2), On(4, "MEASURE", 1, 2)],
    ["entanglement", "bell-state", "multi-qubit", "cnot"])

  const Interference := Template(
    "quantum-interference", "Quantum Interference",
    "Demonstrate wave-like interference in quantum systems",
    Intermediate, 3, 1,
    [On(1, "H", 0, 0), On(2, "Z", 0, 1), On(3, "H", 0, 2), On(4, "MEASURE", 0, 3)],
    ["interference", "wave-behavior", "hadamard", "phase"])

  const CoinFlip := Template(
    "quantum-coin-flip", "Quantum Coin Flip",
    "True random number generation using quantum superposition",
    Intermediate, 2, 1,
    [On(1, "H", 0, 0), On(2, "MEASURE", 0, 1)],
    ["randomness", "superposition", "cryptography"])

  const Grover := Template(
    "grover-search-2bit", "Grover Search (2-bit)",
    "Quantum search algorithm for finding marked items",
    Advanced, 4, 2,
    [On(1, "H", 0, 0), On(2, "H", 1, 0), On(3, "Z", 0, 1), On(4, "Z", 1, 1),
     On(5, "H", 0, 2), On(6, "H", 1, 2), On(7, "MEASURE", 0, 3), On(8, "MEASURE", 1, 3)],
    ["grover", "search-algorithm", "amplitude-amplification"])

  const Fourier := Template(
    "quantum-fourier-transform", "Quantum Fourier Transform",
    "Quantum version of the Fourier transform",
    Advanced, 5, 3,
    [On(1, "H", 0, 0), On(2, "H", 1, 0), On(3, "H", 2, 0), Cx(4, 0, 1, 1), Cx(5, 1, 2, 2),
     On(6, "MEASURE", 0, 3), On(7, "MEASURE", 1, 3), On(8, "MEASURE", 2, 3)],
    ["fourier-transform", "phase-estimation", "shor-algorithm"])

  const Vqe := Template(
    "vqe-simple", "Variational Quantum Eigensolver (VQE)",
    "Hybrid quantum-classical algorithm for finding ground states",
    Algorithm, 4, 2,
    [On(1, "H", 0, 0), On(2, "H", 1, 0), Cx(3, 0, 1, 1), On(4, "RX", 0, 2), On(5, "RY", 1, 2),
     On(6, "MEASURE", 0, 3), On(7, "MEASURE", 1, 3)],
    ["vqe", "hybrid-algorithm", "chemistry", "optimization"])

  const Qaoa := Template(
    "qaoa-simple", "Quantum Approximate Optimization Algorithm (QAOA)",
    "Quantum algorithm for solving optimization problems",
    Algorithm, 4, 2,
    [On(1, "H", 0, 0), On(2, "H", 1, 0), Cx(3, 0, 1, 1), On(4, "RX", 0, 2), On(5, "RX", 1, 2),
     On(6, "MEASURE", 0, 3), On(7, "MEASURE", 1, 3)],
    ["qaoa", "optimization", "max-cut", "combinatorial"])

  /** circuitTemplates, in the order the gallery lists them. */
  const CircuitTemplates: seq<Template> :=
    [Superposition, Measurement, Pauli, Bell, Interference, CoinFlip, Grover, Fourier, Vqe, Qaoa]

  // ---------------------------------------------------------------------------
  // Data invariants of the template table
  // ---------------------------------------------------------------------------

  /** Every index the gate names lies in [0, n). */
  predicate IndicesWithin(g: UiGate, n: int) {
    && (g.qubit.Some? ==> 0 <= g.qubit.value < n)
    && (g.control.Some? ==> 0 <= g.control.value < n)
    && (g.control2.Some? ==> 0 <= g.control2.value < n)
    && (g.target.Some? ==> 0 <= g.target.value < n)
  }

  /** A template can be loaded onto its own register: positions set and non-negative, indices in range, gate ids distinct. */
  predicate WellFormed(t: Template) {
    && 1 <= t.difficulty <= 5
    && 1 <= t.qubits
    && (forall i :: 0 <= i < |t.circuit| ==> IndicesWithin(t.circuit[i], t.qubits))
    && (forall i :: 0 <= i < |t.circuit| ==> t.circuit[i].position.Some? && t.circuit[i].position.value >= 0)
    && (forall i, j :: 0 <= i < j < |t.circuit| ==> t.circuit[i].id != t.circuit[j].id)
  }

  /**
   * The gates from index i on are numbered i + 1, i + 2, ..., placed at
   * non-negative positions and name only qubits below n; stated by
   * recursion so that it can be checked on the literal table.
   */
  predicate FormedFrom(c: seq<UiGate>, n: int, i: nat)
    decreases |c| - i
  {
    i >= |c| ||
    (&& c[i].id == i + 1
     && IndicesWithin(c[i], n)
     && c[i].position.Some? && c[i].position.value >= 0
     && FormedFrom(c, n, i + 1))
  }

  lemma {:induction false} FormedFromMeans(c: seq<UiGate>, n: int, i: nat)
    requires FormedFrom(c, n, i)
    ensures forall k :: i <= k < |c| ==> c[k].id == k + 1 && IndicesWithin(c[k], n)
    ensures forall k :: i <= k < |c| ==> c[k].position.Some? && c[k].position.value >= 0
    decreases |c| - i
  {
    if i < |c| {
      FormedFromMeans(c, n, i + 1);
    }
  }

  lemma NumberedWellFormed(t: Template)
    requires 1 <= t.difficulty <= 5 && 1 <= t.qubits && FormedFrom(t.circuit, t.qubits, 0)
    ensures WellFormed(t)
  {
    FormedFromMeans(t.circuit, t.qubits, 0);
  }

  /** Template ids are distinct. */
  lemma TemplateIdsDistinct()
    ensures forall i, j :: 0 <= i < j < |CircuitTemplates| ==> CircuitTemplates[i].id != CircuitTemplates[j].id
  {
    var ts := CircuitTemplates;
    // Any two ids already differ in length or in their first character.
    var keys := seq(|ts|, i requires 0 <= i < |ts| => (|ts[i].id|, ts[i].id[0]));
    assert keys == [(19, 's'), (17, 'm'), (11, 'p'), (10, 'b'), (20, 'q'), (17, 'q'), (18, 'g'), (25, 'q'), (10, 'v'), (11, 'q')];
    forall i, j | 0 <= i < j < |ts|
      ensures ts[i].id != ts[j].id
    {
      assert keys[i] != keys[j];
    }
  }

  /** Every template is well formed. */
  lemma TemplatesWellFormed()
    ensures forall i :: 0 <= i < |CircuitTemplates| ==> WellFormed(CircuitTemplates[i])
  {
    BasicTemplatesNumbered();
    AdvancedTemplatesNumbered();
    var ts := CircuitTemplates;
    forall i | 0 <= i < |ts|
      ensures WellFormed(ts[i])
    {
      NumberedWellFormed(ts[i]);
    }
  }

  /** The first five templates are numbered from 1 and placed on their own register. */
  lemma BasicTemplatesNumbered()
    ensures FormedFrom(Superposition.circuit, Superposition.qubits, 0)
    ensures FormedFrom(Measurement.circuit, Measurement.qubits, 0)
    ensures FormedFrom(Pauli.circuit, Pauli.qubits, 0)
    ensures FormedFrom(Bell.circuit, Bell.qubits, 0)
    ensures FormedFrom(Interference.circuit, Interference.qubits, 0)
  {
  }

  /** The last five templates are numbered from 1 and placed on their own register. */
  lemma AdvancedTemplatesNumbered()
    ensures FormedFrom(CoinFlip.circuit, CoinFlip.qubits, 0)
    ensures FormedFrom(Grover.circuit, Grover.qubits, 0)
    ensures FormedFrom(Fourier.circuit, Fourier.qubits, 0)
    ensures FormedFrom(Vqe.circuit, Vqe.qubits, 0)
    ensures FormedFrom(Qaoa.circuit, Qaoa.qubits, 0)
  {
  }

  // ---------------------------------------------------------------------------
  // Gallery filters
  // ---------------------------------------------------------------------------

  function CategoryTest(category: Category): Template -> bool {
    (t: Template) => t.category == category
  }

  function DifficultyTest(maxDifficulty: int): Template -> bool {
    (t: Template) => t.difficulty <= maxDifficulty
  }

  /** The lower-cased query occurs in the lower-cased name, description or some tag. */
  predicate Matches(t: Template, query: string) {
    var q := Lower(query);
    || Contains(q, Lower(t.name))
    || Contains(q, Lower(t.description))
    || exists k :: 0 <= k < |t.tags| && Contains(q, Lower(t.tags[k]))
  }

  function SearchTest(query: string): Template -> bool {
    (t: Template) => Matches(t, query)
  }

  /** getTemplatesByCategory. */
  function ByCategory(category: Category): seq<Template> {
    Select(CircuitTemplates, CategoryTest(category))
  }

  /** getTemplatesByDifficulty. */
  function ByDifficulty(maxDifficulty: int): seq<Template> {
    Select(CircuitTemplates, DifficultyTest(maxDifficulty))
  }

  /** searchTemplates. */
  function Search(query: string): seq<Template> {
    Select(CircuitTemplates, SearchTest(query))
  }

  /** The category filter returns, in table order, exactly the templates of that category. */
  lemma ByCategoryKeeps(category: Category)
    ensures PickedAt(ByCategory(category), CircuitTemplates, Positions(CircuitTemplates, CategoryTest(category)))
    ensures forall i :: 0 <= i < |CircuitTemplates| ==>
      (i in Positions(CircuitTemplates, CategoryTest(category)) <==> CircuitTemplates[i].category == category)
    ensures forall t :: t in ByCategory(category) <==> t in CircuitTemplates && t.category == category
  {
    FilterKeeps(CircuitTemplates, CategoryTest(category));
  }

  /** The difficulty filter returns, in table order, exactly the templates at most that difficult. */
  lemma ByDifficultyKeeps(maxDifficulty: int)
    ensures PickedAt(ByDifficulty(maxDifficulty), CircuitTemplates, Positions(CircuitTemplates, DifficultyTest(maxDifficulty)))
    ensures forall i :: 0 <= i < |CircuitTemplates| ==>
      (i in Positions(CircuitTemplates, DifficultyTest(maxDifficulty)) <==> CircuitTemplates[i].difficulty <= maxDifficulty)
    ensures forall t :: t in ByDifficulty(maxDifficulty) <==> t in CircuitTemplates && t.difficulty <= maxDifficulty
  {
    FilterKeeps(CircuitTemplates, DifficultyTest(maxDifficulty));
  }

  /** Any filter of any table keeps, in order, exactly the templates that pass it. */
  lemma FilterKeeps(templates: seq<Template>, keep: Template -> bool)
    ensures PickedAt(Select(templates, keep), templates, Positions(templates, keep))
    ensures forall i :: 0 <= i < |templates| ==> (i in Positions(templates, keep) <==> keep(templates[i]))
    ensures forall t :: t in Select(templates, keep) <==> t in templates && keep(t)
  {
    SelectPositions(templates, keep);
    forall t {
      SelectMembers(templates, keep, t);
    }
  }

  /** Filtering any table by a query keeps, in order, exactly the templates it matches. */
  lemma SearchInKeeps(templates: seq<Template>, query: string)
    ensures PickedAt(Select(templates, SearchTest(query)), templates, Positions(templates, SearchTest(query)))
    ensures forall i :: 0 <= i < |templates| ==>
      (i in Positions(templates, SearchTest(query)) <==> Matches(templates[i], query))
    ensures forall t :: t in Select(templates, SearchTest(query)) <==> t in templates && Matches(t, query)
  {
    FilterKeeps(templates, SearchTest(query));
  }

  /** The search returns, in table order, exactly the templates the query matches. */
  lemma SearchKeeps(query: string)
    ensures PickedAt(Search(query), CircuitTemplates, Positions(CircuitTemplates, SearchTest(query)))
    ensures forall i :: 0 <= i < |CircuitTemplates| ==>
      (i in Positions(CircuitTemplates, SearchTest(query)) <==> Matches(CircuitTemplates[i], query))
    ensures forall t :: t in Search(query) <==> t in CircuitTemplates && Matches(t, query)
  {
    SearchInKeeps(CircuitTemplates, query);
  }

  /** An empty query matches every template of any table. */
  lemma SearchInEmpty(templates: seq<Template>)
    ensures Select(templates, SearchTest("")) == templates
  {
    assert Lower("") == "";
    forall i | 0 <= i < |templates|
      ensures SearchTest("")(templates[i])
    {
      ContainsEmpty(Lower(templates[i].name));
    }
    SelectAll(templates, SearchTest(""));
  }

  /** An empty query lists every template. */
  lemma SearchEmpty()
    ensures Search("") == CircuitTemplates
  {
    SearchInEmpty(CircuitTemplates);
  }

  /** Upper and lower case in the query make no difference. */
  lemma SearchIgnoresCase(query: string)
    ensures Search(Lower(query)) == Search(query)
  {
    SearchInIgnoresCase(CircuitTemplates, query);
  }

  /** Over any table, lower-casing the query first selects the same templates. */
  lemma SearchInIgnoresCase(templates: seq<Template>, query: string)
    ensures Select(templates, SearchTest(Lower(query))) == Select(templates, SearchTest(query))
  {
    LowerIdempotent(query);
    SelectSame(templates, SearchTest(Lower(query)), SearchTest(query));
  }

  // ---------------------------------------------------------------------------
  // Circuit history
  // ---------------------------------------------------------------------------

  /** MAX_HISTORY. */
  const MaxHistory := 50

  /** A saved circuit; its timestamp is left out. */
  datatype HistoryEntry = HistoryEntry(
    id: string,
    name: string,
    circuit: seq<UiGate>,
    numQubits: int,
    description: string)

  /** The name an entry gets: the given one unless it is absent or empty, else `Circuit k+1`. */
  function EntryName(priorLength: nat, name: Option<string>): (s: string)
    ensures name.Some? && name.value != "" ==> s == name.value
    ensures (name.None? || name.value == "") ==>
      && |s| > 8 && s[..8] == "Circuit "
      && (forall i :: 8 <= i < |s| ==> IsDigit(s[i], 10))
      && s[8] != '0'
      && ValueOf(s[8..], 10) == priorLength + 1
  {
    if name.Some? && name.value != "" then name.value
    else
      var s := "Circuit " + Decimal(priorLength + 1);
      assert s[8..] == Decimal(priorLength + 1);
      DecimalValue(priorLength + 1);
      s
  }

  /** `Circuit with {len} gates and {n} qubits`. */
  function Description(gates: nat, numQubits: int): string {
    "Circuit with " + Decimal(gates) + " gates and " + Decimal(numQubits) + " qubits"
  }

  /** The entry saveCircuit builds; now is Date.now(), whose decimal text is the id. */
  function NewEntry(prior: seq<HistoryEntry>, circuit: seq<UiGate>, numQubits: int,
                    name: Option<string>, now: int): HistoryEntry
  {
    HistoryEntry(Decimal(now), EntryName(|prior|, name), circuit, numQubits,
                 Description(|circuit|, numQubits))
  }

  /** The history after unshift and splice(MAX_HISTORY). */
  function Pushed(prior: seq<HistoryEntry>, e: HistoryEntry): (h: seq<HistoryEntry>)
    ensures |h| == if |prior| < MaxHistory then |prior| + 1 else MaxHistory
    ensures h[0] == e
    ensures h[1..] == prior[..|h| - 1]
  {
    var l := [e] + prior;
    assert l[1..] == prior;
    if |l| > MaxHistory then l[..MaxHistory] else l
  }

  function NotId(id: string): HistoryEntry -> bool {
    (e: HistoryEntry) => e.id != id
  }

  /** The history after deleteCircuit: every entry with another id, in order. */
  function Deleted(prior: seq<HistoryEntry>, id: string): seq<HistoryEntry> {
    Select(prior, NotId(id))
  }

  /** Deleting removes exactly the entries with that id and keeps the rest in order. */
  lemma DeletedKeeps(prior: seq<HistoryEntry>, id: string)
    ensures PickedAt(Deleted(prior, id), prior, Positions(prior, NotId(id)))
    ensures forall i :: 0 <= i < |prior| ==> (i in Positions(prior, NotId(id)) <==> prior[i].id != id)
    ensures forall e :: e in Deleted(prior, id) <==> e in prior && e.id != id
  {
    SelectPositions(prior, NotId(id));
    forall e {
      SelectMembers(prior, NotId(id), e);
    }
  }

  /** Deleting an id that no entry has changes nothing. */
  lemma DeleteAbsent(prior: seq<HistoryEntry>, id: string)
    requires forall i :: 0 <= i < |prior| ==> prior[i].id != id
    ensures Deleted(prior, id) == prior
  {
    SelectAll(prior, NotId(id));
  }

  /**
   * CircuitHistoryManager over its storage slot: stored is what
   * localStorage holds under the history key, None when nothing is stored.
   */
  class CircuitHistoryManager {
    var stored: Option<seq<HistoryEntry>>

    constructor(storage: Option<seq<HistoryEntry>>)
      ensures stored == storage
    {
      stored := storage;
    }

    /** getHistory: the stored list, or [] when nothing is stored. */
    function History(): seq<HistoryEntry>
      reads this
    {
      if stored.Some? then stored.value else []
    }

    /** saveCircuit: the new entry first, then the previous ones, at most MAX_HISTORY in all. */
    method SaveCircuit(circuit: seq<UiGate>, numQubits: int, name: Option<string>, now: int)
      modifies this
      ensures stored == Some(Pushed(old(History()), NewEntry(old(History()), circuit, numQubits, name, now)))
      ensures History()[0] == NewEntry(old(History()), circuit, numQubits, name, now)
      ensures History()[0].circuit == circuit
      ensures History()[1..] == old(History())[..|History()| - 1]
      ensures |History()| == (if |old(History())| < MaxHistory then |old(History())| + 1 else MaxHistory)
    {
      var history := History();
      var entry := NewEntry(history, circuit, numQubits, name, now);
      history := [entry] + history;
      if |history| > MaxHistory {
        history := history[..MaxHistory];
      }
      stored := Some(history);
    }

    /** deleteCircuit: stores the history without the entries of that id. */
    method DeleteCircuit(id: string)
      modifies this
      ensures stored == Some(Deleted(old(History()), id))
      ensures forall e :: e in History() <==> e in old(History()) && e.id != id
    {
      var history := History();
      DeletedKeeps(history, id);
      stored := Some(Deleted(history, id));
    }

    /** clearHistory: removes the stored list, after which the history is empty. */
    method ClearHistory()
      modifies this
      ensures stored == None
      ensures History() == []
    {
      stored := None;
    }
  }

  /** The history never exceeds MAX_HISTORY entries once it was within bounds. */
  lemma PushedBounded(prior: seq<HistoryEntry>, e: HistoryEntry)
    ensures |Pushed(prior, e)| <= MaxHistory
    ensures |prior| < MaxHistory ==> Pushed(prior, e) == [e] + prior
  {
    var h := Pushed(prior, e);
    if |prior| < MaxHistory {
      assert h == [h[0]] + h[1..];
    }
  }
}
