/**
 * The operator composition engine of src/lib/operations.ts: identity
 * matrices, the Kronecker product and the matrix-vector product, and on top
 * of them the application of a single-qubit and of a two-qubit gate by
 * folding `kron` over the qubit positions into a full 2^n x 2^n operator.
 */
module Operations {
  import opened Common
  import opened Complex
  import opened Bits

  type Vector = seq<C>
  type Matrix = seq<seq<C>>

  /** The width the source reads off a matrix: the length of its first row. */
  function Width(m: Matrix): nat {
    if |m| == 0 then 0 else |m[0]|
  }

  /** No row is shorter than the first one, so every a[i][k] with k < |a[0]| exists. */
  predicate Rows(m: Matrix) {
    forall i :: 0 <= i < |m| ==> |m[i]| >= Width(m)
  }

  predicate Square(m: Matrix, d: nat) {
    |m| == d && forall i :: 0 <= i < d ==> |m[i]| == d
  }

  lemma MulAtLeast(k: int, d: int)
    requires d >= 0
    ensures k >= 1 ==> k * d >= d
    ensures k <= -1 ==> k * d <= 0 - d
  {
  }

  lemma MulLe(x: nat, y: nat, q: nat)
    requires x <= y
    ensures x * q <= y * q
  {
  }

  /** Euclidean division by d recovers the quotient and remainder of q * d + r. */
  lemma DivModOf(q: nat, d: nat, r: nat)
    requires r < d
    ensures (q * d + r) / d == q && (q * d + r) % d == r
  {
    var x := q * d + r;
    var k := q - x / d;
    assert k * d == x % d - r;
    MulAtLeast(k, d);
  }

  lemma DivBelow(x: nat, p: nat, q: nat)
    requires x < p * q
    ensures q > 0 && x / q < p && x % q < q
  {
  }

  lemma ProductBelow(i: nat, j: nat, p: nat, q: nat)
    requires i < p && j < q
    ensures i * q + j < p * q
  {
    assert i * q + j < i * q + q == (i + 1) * q <= p * q;
  }

  /** The n x n identity: [1, 0] on the diagonal and [0, 0] elsewhere. */
  function Identity(n: nat): (m: Matrix)
    ensures Square(m, n)
  {
    seq(n, i requires 0 <= i < n => seq(n, j requires 0 <= j < n => if i == j then One else Zero))
  }

  /** identityMatrix (src/lib/operations.ts:3-13): rows pushed one by one, each filled cell by cell. */
  method IdentityMatrix(size: nat) returns (matrix: Matrix)
    ensures matrix == Identity(size)
    ensures forall i, j :: 0 <= i < size && 0 <= j < size ==> matrix[i][j] == if i == j then One else Zero
  {
    matrix := [];
    var i := 0;
    while i < size
      invariant 0 <= i <= size
      invariant matrix == Identity(size)[..i]
    {
      var row: seq<C> := [];
      var j := 0;
      while j < size
        invariant 0 <= j <= size
        invariant row == Identity(size)[i][..j]
      {
        row := row + [if i == j then One else Zero];
        j := j + 1;
      }
      assert row == Identity(size)[i];
      matrix := matrix + [row];
      i := i + 1;
    }
  }

  function KronCell(a: Matrix, b: Matrix, x: nat, y: nat): C
    requires Rows(a) && Rows(b) && x < |a| * |b| && y < Width(a) * Width(b)
  {
    DivBelow(x, |a|, |b|);
    DivBelow(y, Width(a), Width(b));
    Mul(a[x / |b|][y / Width(b)], b[x % |b|][y % Width(b)])
  }

  /** The Kronecker product: |a|*|b| rows, each of width |a[0]|*|b[0]|. */
  function KronOf(a: Matrix, b: Matrix): (k: Matrix)
    requires Rows(a) && Rows(b)
    ensures |k| == |a| * |b|
    ensures forall x :: 0 <= x < |k| ==> |k[x]| == Width(a) * Width(b)
  {
    seq(|a| * |b|, x requires 0 <= x < |a| * |b| =>
      seq(Width(a) * Width(b), y requires 0 <= y < Width(a) * Width(b) => KronCell(a, b, x, y)))
  }

  /** All rows of a Kronecker product have the same length. */
  lemma KronRows(a: Matrix, b: Matrix)
    requires Rows(a) && Rows(b)
    ensures Rows(KronOf(a, b))
  {
  }

  /** Entry (i*|b| + j, k*|b[0]| + l) of kron(a, b) is a[i][k] * b[j][l]. */
  lemma KronEntry(a: Matrix, b: Matrix, i: nat, j: nat, k: nat, l: nat)
    requires Rows(a) && Rows(b)
    requires i < |a| && j < |b| && k < Width(a) && l < Width(b)
    ensures i * |b| + j < |a| * |b| && k * Width(b) + l < Width(a) * Width(b)
    ensures KronOf(a, b)[i * |b| + j][k * Width(b) + l] == Mul(a[i][k], b[j][l])
  {
    ProductBelow(i, j, |a|, |b|);
    ProductBelow(k, l, Width(a), Width(b));
    DivModOf(i, |b|, j);
    DivModOf(k, Width(b), l);
  }

  /** Element x == i*|b| + j of kron(a, b) as a cell-by-cell loop. */
  lemma KronAt(a: Matrix, b: Matrix, x: nat, y: nat)
    requires Rows(a) && Rows(b) && x < |a| * |b| && y < Width(a) * Width(b)
    ensures y < |KronOf(a, b)[x]|
    ensures KronOf(a, b)[x][y] == KronCell(a, b, x, y)
  {
  }

  /** kron (src/lib/operations.ts:15-29): four nested loops pushing a[i][k] * b[j][l]. */
  method Kron(a: Matrix, b: Matrix) returns (result: Matrix)
    requires Rows(a) && Rows(b)
    ensures result == KronOf(a, b)
  {
    result := [];
    var i := 0;
    while i < |a|
      invariant 0 <= i <= |a|
      invariant i * |b| <= |a| * |b|
      invariant result == KronOf(a, b)[..i * |b|]
    {
      var j := 0;
      while j < |b|
        invariant 0 <= j <= |b|
        invariant i * |b| + j <= |a| * |b|
        invariant result == KronOf(a, b)[..i * |b| + j]
      {
        ProductBelow(i, j, |a|, |b|);
        var row := KronRow(a, b, i, j);
        result := result + [row];
        j := j + 1;
      }
      assert i * |b| + |b| == (i + 1) * |b|;
      i := i + 1;
    }
  }

  /** The two inner loops of kron: row i*|b| + j of the product. */
  method KronRow(a: Matrix, b: Matrix, i: nat, j: nat) returns (row: seq<C>)
    requires Rows(a) && Rows(b) && i < |a| && j < |b|
    ensures i * |b| + j < |a| * |b|
    ensures row == KronOf(a, b)[i * |b| + j]
  {
    ProductBelow(i, j, |a|, |b|);
    ghost var want := KronOf(a, b)[i * |b| + j];
    row := [];
    var k := 0;
    while k < Width(a)
      invariant 0 <= k <= Width(a)
      invariant k * Width(b) <= Width(a) * Width(b)
      invariant row == want[..k * Width(b)]
    {
      var l := 0;
      while l < Width(b)
        invariant 0 <= l <= Width(b)
        invariant k * Width(b) + l <= Width(a) * Width(b)
        invariant row == want[..k * Width(b) + l]
      {
        KronEntry(a, b, i, j, k, l);
        row := row + [Mul(a[i][k], b[j][l])];
        l := l + 1;
      }
      assert k * Width(b) + Width(b) == (k + 1) * Width(b);
      MulLe(k + 1, Width(a), Width(b));
      k := k + 1;
    }
  }

  /** The running sum [0, 0] + row[0] * v[0] + ... + row[m-1] * v[m-1], added left to right. */
  function Dot(row: seq<C>, v: Vector, m: nat): C
    requires m <= |row| && m <= |v|
  {
    if m == 0 then Zero else Add(Dot(row, v, m - 1), Mul(row[m - 1], v[m - 1]))
  }

  /**
   * matrixVectorMultiply: one entry per matrix row, entry i being the sum over
   * j < |v| of M[i][j] * v[j]. A row shorter than v makes mulComplex receive
   * `undefined` and throw.
   */
  function MatVec(m: Matrix, v: Vector): Outcome<Vector> {
    if exists i :: 0 <= i < |m| && |m[i]| < |v| then Threw
    else Returned(seq(|m|, i requires 0 <= i < |m| => Dot(m[i], v, |v|)))
  }

  /** A vector longer than the rows of a square matrix makes the product throw. */
  lemma MatVecTooLong(m: Matrix, v: Vector, d: nat)
    requires Square(m, d) && 0 < d < |v|
    ensures MatVec(m, v) == Threw
  {
    assert |m[0]| < |v|;
  }

  /** matrixVectorMultiply (src/lib/operations.ts:31-44): a running sum per row. */
  method MatrixVectorMultiply(matrix: Matrix, vector: Vector) returns (result: Outcome<Vector>)
    ensures result == MatVec(matrix, vector)
  {
    var out: Vector := [];
    var i := 0;
    while i < |matrix|
      invariant 0 <= i <= |matrix|
      invariant forall i' :: 0 <= i' < i ==> |matrix[i']| >= |vector|
      invariant |out| == i && forall i' :: 0 <= i' < i ==> out[i'] == Dot(matrix[i'], vector, |vector|)
    {
      if |matrix[i]| < |vector| {
        // mulComplex(matrix[i][|matrix[i]|], ...) destructures undefined
        return Threw;
      }
      var sum := Zero;
      var j := 0;
      while j < |vector|
        invariant 0 <= j <= |vector|
        invariant sum == Dot(matrix[i], vector, j)
      {
        sum := Add(sum, Mul(matrix[i][j], vector[j]));
        j := j + 1;
      }
      out := out + [sum];
      i := i + 1;
    }
    assert out == seq(|matrix|, i requires 0 <= i < |matrix| => Dot(matrix[i], vector, |vector|));
    result := Returned(out);
  }

  /**
   * Entry (r, c) of the operator that applySingleQubitGate builds for m
   * qubits with target t: the gate entry selected by bit t of r and of c when
   * r and c agree on every other bit, zero otherwise. With t outside [0, m)
   * every factor is the identity and so is the operator.
   */
  function SingleCell(g: Matrix, t: int, m: nat, r: nat, c: nat): C
    requires Square(g, 2)
  {
    if !AgreeExcept(r, c, t, m) then Zero
    else if 0 <= t < m then g[Bit(r, t)][Bit(c, t)]
    else One
  }

  function SingleOperator(g: Matrix, t: int, m: nat): (op: Matrix)
    requires Square(g, 2)
    ensures Square(op, Pow2(m))
  {
    seq(Pow2(m), r requires 0 <= r < Pow2(m) =>
      seq(Pow2(m), c requires 0 <= c < Pow2(m) => SingleCell(g, t, m, r, c)))
  }

  /** The factor kron'ed in at a position t places above it: the gate at its own position, the identity elsewhere. */
  function Factor(g: Matrix, t: int): (f: Matrix)
    requires Square(g, 2)
    ensures Square(f, 2)
    ensures t != 0 ==> forall x, y :: 0 <= x < 2 && 0 <= y < 2 ==> f[x][y] == if x == y then One else Zero
  {
    if t == 0 then g else Identity(2)
  }

  /**
   * applySingleQubitGate (src/lib/operations.ts:81-98): fold kron over the
   * positions i = n-1 down to 0, then multiply the operator into the state.
   * On a state of length 2^n this is the bit-local update of bit t.
   */
  method ApplySingleQubitGate(stateVector: Vector, gate: Matrix, targetQubit: int, numQubits: nat)
    returns (result: Outcome<Vector>)
    requires Square(gate, 2)
    ensures result == MatVec(SingleOperator(gate, targetQubit, numQubits), stateVector)
    ensures |stateVector| == Pow2(numQubits) ==>
              result == Returned(SingleQubitUpdate(stateVector, gate, targetQubit, numQubits))
    ensures |stateVector| > Pow2(numQubits) ==> result == Threw
  {
    var fullOperator := SingleQubitOperator(gate, targetQubit, numQubits);
    result := MatrixVectorMultiply(fullOperator, stateVector);
    SingleOutcome(stateVector, gate, targetQubit, numQubits);
  }

  /** The loop of applySingleQubitGate that krons a factor per qubit, from position n-1 down to 0. */
  method SingleQubitOperator(gate: Matrix, targetQubit: int, numQubits: nat) returns (fullOperator: Matrix)
    requires Square(gate, 2)
    ensures fullOperator == SingleOperator(gate, targetQubit, numQubits)
  {
    fullOperator := IdentityMatrix(1);
    SingleStart(gate, targetQubit - numQubits);
    var i: int := numQubits - 1;
    while i >= 0
      invariant -1 <= i < numQubits
      invariant fullOperator == SingleOperator(gate, targetQubit - (i + 1), numQubits - (i + 1))
    {
      var factor := FactorAt(gate, targetQubit, i);
      SingleFoldStep(gate, targetQubit, i, numQubits);
      fullOperator := Kron(fullOperator, factor);
      i := i - 1;
    }
  }

  /** The factor for position i: the gate at the target, the 2 x 2 identity elsewhere. */
  method FactorAt(gate: Matrix, targetQubit: int, i: int) returns (factor: Matrix)
    requires Square(gate, 2)
    ensures factor == Factor(gate, targetQubit - i)
  {
    if i == targetQubit {
      factor := gate;
    } else {
      factor := IdentityMatrix(2);
    }
  }

  /** One turn of the kron loop: folding in position i extends the operator by one qubit. */
  lemma SingleFoldStep(g: Matrix, t: int, i: nat, n: nat)
    requires Square(g, 2) && i < n
    ensures Rows(SingleOperator(g, t - (i + 1), n - (i + 1))) && Rows(Factor(g, t - i))
    ensures KronOf(SingleOperator(g, t - (i + 1), n - (i + 1)), Factor(g, t - i)) == SingleOperator(g, t - i, n - i)
  {
    SinglePeel(g, t - i, n - i);
  }

  /** With no qubits folded in yet the operator is the 1 x 1 identity. */
  lemma SingleStart(g: Matrix, t: int)
    requires Square(g, 2)
    ensures SingleOperator(g, t, 0) == Identity(1)
  {
    assert SingleOperator(g, t, 0)[0][0] == One;
    SameMatrix(Identity(1), SingleOperator(g, t, 0), 1);
  }

  /** The product with the full operator: the bit-local update on a state of 2^n amplitudes, an exception on a longer one. */
  lemma SingleOutcome(v: Vector, g: Matrix, t: int, n: nat)
    requires Square(g, 2)
    ensures |v| == Pow2(n) ==> MatVec(SingleOperator(g, t, n), v) == Returned(SingleQubitUpdate(v, g, t, n))
    ensures |v| > Pow2(n) ==> MatVec(SingleOperator(g, t, n), v) == Threw
  {
    if |v| == Pow2(n) {
      SingleQubitFold(v, g, t, n);
    }
    if |v| > Pow2(n) {
      MatVecTooLong(SingleOperator(g, t, n), v, Pow2(n));
    }
  }

  /**
   * The bit-local meaning of a single-qubit gate on bit t: amplitude k becomes
   * gate[bit t of k][0] * v[k with bit t := 0] + gate[bit t of k][1] * v[k with bit t := 1].
   * A target outside [0, n) leaves the state as it is.
   */
  function SingleQubitUpdate(v: Vector, g: Matrix, t: int, n: nat): (w: Vector)
    requires Square(g, 2) && |v| == Pow2(n)
    ensures |w| == |v|
  {
    if 0 <= t < n then
      seq(|v|, k requires 0 <= k < |v| =>
        WithBitBelow(k, t, 0, n);
        WithBitBelow(k, t, 1, n);
        Add(Mul(g[Bit(k, t)][0], v[WithBit(k, t, 0)]), Mul(g[Bit(k, t)][1], v[WithBit(k, t, 1)])))
    else v
  }

  /**
   * The kron loop peels off qubit 0 last: the operator for m qubits is the one
   * for qubits m-1..1 (where the target sits one place lower) kron'ed with the
   * factor at qubit 0.
   */
  lemma SinglePeel(g: Matrix, t: int, m: nat)
    requires Square(g, 2) && 0 < m
    ensures KronOf(SingleOperator(g, t - 1, m - 1), Factor(g, t)) == SingleOperator(g, t, m)
  {
    var k := KronOf(SingleOperator(g, t - 1, m - 1), Factor(g, t));
    var op := SingleOperator(g, t, m);
    forall r, c | 0 <= r < Pow2(m) && 0 <= c < Pow2(m)
      ensures r < |k| && c < |k[r]| && k[r][c] == op[r][c]
    {
      PeelEntry(g, t, m, r, c);
    }
    SameMatrix(k, op, Pow2(m));
  }

  lemma PeelEntry(g: Matrix, t: int, m: nat, r: nat, c: nat)
    requires Square(g, 2) && 0 < m && r < Pow2(m) && c < Pow2(m)
    ensures Square(KronOf(SingleOperator(g, t - 1, m - 1), Factor(g, t)), Pow2(m))
    ensures KronOf(SingleOperator(g, t - 1, m - 1), Factor(g, t))[r][c] == SingleCell(g, t, m, r, c)
  {
    var a := SingleOperator(g, t - 1, m - 1);
    var f := Factor(g, t);
    KronByTwo(a, f, Pow2(m - 1), r, c);
    assert a[r / 2][c / 2] == SingleCell(g, t - 1, m - 1, r / 2, c / 2);
    PeelCell(g, t, m, r, c);
  }

  /** Kron with a 2 x 2 factor on the right: entry (r, c) pairs the halves of r and c with their low bits. */
  lemma KronByTwo(a: Matrix, f: Matrix, d: nat, r: nat, c: nat)
    requires Square(a, d) && Square(f, 2) && r < 2 * d && c < 2 * d
    ensures Square(KronOf(a, f), 2 * d)
    ensures r / 2 < d && c / 2 < d
    ensures KronOf(a, f)[r][c] == Mul(a[r / 2][c / 2], f[r % 2][c % 2])
  {
    assert |a| == Width(a) == d && |f| == Width(f) == 2;
    KronAt(a, f, r, c);
  }

  /** Two n x n matrices with the same entries are equal. */
  lemma SameMatrix(a: Matrix, b: Matrix, n: nat)
    requires Square(a, n) && Square(b, n)
    requires forall i, j :: 0 <= i < n && 0 <= j < n ==> a[i][j] == b[i][j]
    ensures a == b
  {
    forall i | 0 <= i < n
      ensures a[i] == b[i]
    {
    }
  }

  /** One entry of the peeling step, on the entry formula alone. */
  lemma PeelCell(g: Matrix, t: int, m: nat, r: nat, c: nat)
    requires Square(g, 2) && 0 < m && r < Pow2(m) && c < Pow2(m)
    ensures Mul(SingleCell(g, t - 1, m - 1, r / 2, c / 2), Factor(g, t)[r % 2][c % 2]) == SingleCell(g, t, m, r, c)
  {
    if t == 0 {
      PeelTarget(g, m, r, c);
    } else {
      PeelOther(g, t, m, r, c);
    }
  }

  /** At the target position the smaller operator is the identity and the factor is the gate. */
  lemma PeelTarget(g: Matrix, m: nat, r: nat, c: nat)
    requires Square(g, 2) && 0 < m && r < Pow2(m) && c < Pow2(m)
    ensures Mul(SingleCell(g, -1, m - 1, r / 2, c / 2), Factor(g, 0)[r % 2][c % 2]) == SingleCell(g, 0, m, r, c)
  {
    Units(Factor(g, 0)[r % 2][c % 2]);
    AgreeOutside(r / 2, c / 2, -1, m - 1);
  }

  /** Away from the target the factor is the identity, which keeps the entry when the low bits agree. */
  lemma PeelOther(g: Matrix, t: int, m: nat, r: nat, c: nat)
    requires Square(g, 2) && 0 < m && t != 0
    ensures Mul(SingleCell(g, t - 1, m - 1, r / 2, c / 2), Factor(g, t)[r % 2][c % 2]) == SingleCell(g, t, m, r, c)
  {
    Units(SingleCell(g, t - 1, m - 1, r / 2, c / 2));
    if t > 0 {
      assert Bit(r, t) == Bit(r / 2, t - 1) && Bit(c, t) == Bit(c / 2, t - 1);
    }
  }

  /** Terms whose matrix entry is zero do not change the running sum. */
  lemma {:induction false} DotZeroRange(row: seq<C>, v: Vector, lo: nat, hi: nat)
    requires lo <= hi <= |row| && hi <= |v|
    requires forall c :: lo <= c < hi ==> row[c] == Zero
    ensures Dot(row, v, hi) == Dot(row, v, lo)
  {
    if hi > lo {
      DotZeroRange(row, v, lo, hi - 1);
      Units(v[hi - 1]);
      Units(Dot(row, v, hi - 1));
    }
  }

  lemma SingleRow(v: Vector, g: Matrix, t: int, n: nat, k: nat)
    requires Square(g, 2) && |v| == Pow2(n) && k < |v|
    ensures Dot(SingleOperator(g, t, n)[k], v, |v|) == SingleQubitUpdate(v, g, t, n)[k]
  {
    if 0 <= t < n {
      SingleRowInside(v, g, t, n, k);
    } else {
      SingleRowOutside(v, g, t, n, k);
    }
  }

  /** Row k of the operator has two non-zero entries, at k with bit t cleared and set. */
  lemma SingleRowInside(v: Vector, g: Matrix, t: nat, n: nat, k: nat)
    requires Square(g, 2) && |v| == Pow2(n) && k < |v| && t < n
    ensures WithBit(k, t, 0) < |v| && WithBit(k, t, 1) < |v|
    ensures Dot(SingleOperator(g, t, n)[k], v, |v|) ==
      Add(Mul(g[Bit(k, t)][0], v[WithBit(k, t, 0)]), Mul(g[Bit(k, t)][1], v[WithBit(k, t, 1)]))
  {
    SingleRowEntries(g, t, n, k);
    DotTwo(SingleOperator(g, t, n)[k], v, WithBit(k, t, 0), WithBit(k, t, 1));
  }

  /** The entries of row k of the operator when the target is a qubit. */
  lemma SingleRowEntries(g: Matrix, t: nat, n: nat, k: nat)
    requires Square(g, 2) && k < Pow2(n) && t < n
    ensures var row, c0, c1 := SingleOperator(g, t, n)[k], WithBit(k, t, 0), WithBit(k, t, 1);
      && c0 < c1 < Pow2(n) == |row|
      && row[c0] == g[Bit(k, t)][0] && row[c1] == g[Bit(k, t)][1]
      && forall c :: 0 <= c < Pow2(n) && c != c0 && c != c1 ==> row[c] == Zero
  {
    var row := SingleOperator(g, t, n)[k];
    var c0, c1 := WithBit(k, t, 0), WithBit(k, t, 1);
    WithBitOne(k, t);
    WithBitBelow(k, t, 0, n);
    WithBitBelow(k, t, 1, n);
    forall c | 0 <= c < Pow2(n) && c != c0 && c != c1
      ensures row[c] == Zero
    {
      AgreeInside(k, c, t, n);
    }
    AgreeInside(k, c0, t, n);
    AgreeInside(k, c1, t, n);
    BitOfWithBit(k, t, 0, t);
    BitOfWithBit(k, t, 1, t);
  }

  /** A row with two non-zero entries picks out two terms of the sum. */
  lemma DotTwo(row: seq<C>, v: Vector, c0: nat, c1: nat)
    requires c0 < c1 < |v| == |row|
    requires forall c :: 0 <= c < |v| && c != c0 && c != c1 ==> row[c] == Zero
    ensures Dot(row, v, |v|) == Add(Mul(row[c0], v[c0]), Mul(row[c1], v[c1]))
  {
    DotZeroRange(row, v, c1 + 1, |v|);
    DotZeroRange(row, v, c0 + 1, c1);
    DotZeroRange(row, v, 0, c0);
    Units(Mul(row[c0], v[c0]));
  }

  /** With the target outside [0, n) row k of the operator is the unit row at k. */
  lemma SingleRowOutside(v: Vector, g: Matrix, t: int, n: nat, k: nat)
    requires Square(g, 2) && |v| == Pow2(n) && k < |v| && !(0 <= t < n)
    ensures Dot(SingleOperator(g, t, n)[k], v, |v|) == v[k]
  {
    var row := SingleOperator(g, t, n)[k];
    var N := |v|;
    forall c | 0 <= c < N && c != k
      ensures row[c] == Zero
    {
      AgreeOutside(k, c, t, n);
    }
    AgreeOutside(k, k, t, n);
    assert row[k] == One;
    DotZeroRange(row, v, k + 1, N);
    DotZeroRange(row, v, 0, k);
    Units(v[k]);
  }

  /** The folded Kronecker operator, multiplied into a state of length 2^n, is the bit-local update. */
  lemma SingleQubitFold(v: Vector, g: Matrix, t: int, n: nat)
    requires Square(g, 2) && |v| == Pow2(n)
    ensures MatVec(SingleOperator(g, t, n), v) == Returned(SingleQubitUpdate(v, g, t, n))
  {
    var op := SingleOperator(g, t, n);
    forall k | 0 <= k < |v|
      ensures Dot(op[k], v, |v|) == SingleQubitUpdate(v, g, t, n)[k]
    {
      SingleRow(v, g, t, n, k);
    }
    assert !exists i :: 0 <= i < |op| && |op[i]| < |v|;
    assert seq(|op|, i requires 0 <= i < |op| => Dot(op[i], v, |v|)) == SingleQubitUpdate(v, g, t, n);
  }

  /** The identity has no off-diagonal entries, so a target outside [0, m) gives the identity operator. */
  lemma SingleOutside(g: Matrix, t: int, m: nat)
    requires Square(g, 2) && !(0 <= t < m)
    ensures SingleOperator(g, t, m) == Identity(Pow2(m))
  {
    forall r, c | 0 <= r < Pow2(m) && 0 <= c < Pow2(m)
      ensures SingleOperator(g, t, m)[r][c] == Identity(Pow2(m))[r][c]
    {
      AgreeOutside(r, c, t, m);
    }
    SameMatrix(SingleOperator(g, t, m), Identity(Pow2(m)), Pow2(m));
  }

  /** kron(I_(2^k), I_2) is I_(2^(k+1)). */
  lemma IdentityGrows(k: nat)
    ensures KronOf(Identity(Pow2(k)), Identity(2)) == Identity(Pow2(k + 1))
  {
    var g := Identity(2);
    SinglePeel(g, -1, k + 1);
    SingleOutside(g, -2, k);
    SingleOutside(g, -1, k + 1);
  }

  /**
   * Entry (r, c) of the operator that applyTwoQubitGate builds when the gate
   * covers bits l+1 and l: the gate entry at (pair of r, pair of c) when c is
   * r with its pair replaced, zero otherwise.
   */
  function TwoCell(g: Matrix, l: nat, r: nat, c: nat): C
    requires Square(g, 4)
  {
    if c == WithPair(r, l, PairOf(c, l)) then g[PairOf(r, l)][PairOf(c, l)] else Zero
  }

  function TwoOperator(g: Matrix, l: nat, m: nat): (op: Matrix)
    requires Square(g, 4)
    ensures Square(op, Pow2(m))
  {
    seq(Pow2(m), r requires 0 <= r < Pow2(m) =>
      seq(Pow2(m), c requires 0 <= c < Pow2(m) => TwoCell(g, l, r, c)))
  }

  /**
   * The loop of applyTwoQubitGate as a fold: from position i down, with the
   * gate inserted at `high` (skipping the position below it), the position
   * `low` skipped once the gate is in, and the 2 x 2 identity everywhere else.
   */
  function TwoFold(g: Matrix, high: int, low: int, i: int, inserted: bool, acc: Matrix): (op: Matrix)
    requires Square(g, 4) && Rows(acc)
    ensures Rows(op)
    decreases i + 2
  {
    if i < 0 then acc
    else if i == high then KronRows(acc, g); TwoFold(g, high, low, i - 2, true, KronOf(acc, g))
    else if i == low && inserted then TwoFold(g, high, low, i - 1, inserted, acc)
    else KronRows(acc, Identity(2)); TwoFold(g, high, low, i - 1, inserted, KronOf(acc, Identity(2)))
  }

  /** The operator applyTwoQubitGate multiplies into the state. */
  function TwoQubitOperator(g: Matrix, control: int, target: int, n: nat): (op: Matrix)
    requires Square(g, 4)
  {
    var fullOp := Identity(1);
    assert Rows(fullOp);
    TwoFold(g, Max(control, target), Min(control, target), n - 1, false, fullOp)
  }

  function Max(a: int, b: int): int {
    if a >= b then a else b
  }

  function Min(a: int, b: int): int {
    if a <= b then a else b
  }

  /**
   * applyTwoQubitGate (src/lib/operations.ts:103-129). Whatever the pair of
   * qubits, the result is the fold's operator times the state. On a state of
   * length 2^n the cases are:
   *   - high in [1, n) and low = high - 1, low = high or low < 0: the gate acts
   *     on bits high and high - 1, bit high selecting the high half of its index;
   *   - high outside [0, n): the identity, the state is returned as it is;
   *   - 0 <= low < high - 1 < n - 1: the operator is 2^(n-1) wide and the
   *     product throws;
   *   - high = 0: the operator is 2^(n+1) wide and the state doubles in length.
   */
  method ApplyTwoQubitGate(stateVector: Vector, gate4x4: Matrix, control: int, target: int, numQubits: nat)
    returns (result: Outcome<Vector>)
    requires Square(gate4x4, 4)
    ensures result == MatVec(TwoQubitOperator(gate4x4, control, target, numQubits), stateVector)
    ensures |stateVector| == Pow2(numQubits) ==> result == TwoQubitEffect(stateVector, gate4x4, control, target, numQubits)
  {
    var high := Max(control, target);
    var low := Min(control, target);
    var fullOp := IdentityMatrix(1);
    var inserted := false;
    var i: int := numQubits - 1;
    while i >= 0
      invariant -2 <= i < numQubits && Rows(fullOp)
      invariant TwoFold(gate4x4, high, low, i, inserted, fullOp) == TwoQubitOperator(gate4x4, control, target, numQubits)
      decreases i + 2
    {
      if i == high {
        KronRows(fullOp, gate4x4);
        fullOp := Kron(fullOp, gate4x4);
        inserted := true;
        i := i - 2;
      } else if i == low && inserted {
        i := i - 1;
      } else {
        var id := IdentityMatrix(2);
        KronRows(fullOp, id);
        fullOp := Kron(fullOp, id);
        i := i - 1;
      }
    }
    result := MatrixVectorMultiply(fullOp, stateVector);
    if |stateVector| == Pow2(numQubits) {
      TwoQubitCases(stateVector, gate4x4, control, target, numQubits);
    }
  }

  /** What applyTwoQubitGate does to a state of length 2^n, case by case. */
  function TwoQubitEffect(v: Vector, g: Matrix, control: int, target: int, n: nat): (o: Outcome<Vector>)
    requires Square(g, 4) && |v| == Pow2(n)
  {
    var high, low := Max(control, target), Min(control, target);
    if !(0 <= high < n) then Returned(v)
    else if high == 0 then MatVec(TwoQubitOperator(g, control, target, n), v)
    else if 0 <= low < high - 1 then Threw
    else Returned(TwoQubitUpdate(v, g, high - 1, n))
  }

  /**
   * The bit-local meaning of a 4 x 4 gate on bits l+1 and l: amplitude k
   * becomes the sum over the four values p of the pair of
   * gate[pair of k][p] * v[k with the pair := p].
   */
  function TwoQubitUpdate(v: Vector, g: Matrix, l: nat, n: nat): (w: Vector)
    requires Square(g, 4) && |v| == Pow2(n) && l + 1 < n
    ensures |w| == |v|
  {
    seq(|v|, k requires 0 <= k < |v| => TwoTerms(v, g, l, n, k))
  }

  function TwoTerms(v: Vector, g: Matrix, l: nat, n: nat, k: nat): C
    requires Square(g, 4) && |v| == Pow2(n) && l + 1 < n && k < |v|
  {
    WithPairBelow(k, l, 0, n);
    WithPairBelow(k, l, 1, n);
    WithPairBelow(k, l, 2, n);
    WithPairBelow(k, l, 3, n);
    var p := PairOf(k, l);
    Add(Add(Add(Mul(g[p][0], v[WithPair(k, l, 0)]), Mul(g[p][1], v[WithPair(k, l, 1)])),
            Mul(g[p][2], v[WithPair(k, l, 2)])),
        Mul(g[p][3], v[WithPair(k, l, 3)]))
  }

  /** kron(op, I_2) moves the pair one place up: the new bit 0 must agree between row and column. */
  lemma TwoShift(g: Matrix, l: nat, m: nat)
    requires Square(g, 4)
    ensures KronOf(TwoOperator(g, l, m), Identity(2)) == TwoOperator(g, l + 1, m + 1)
  {
    var k := KronOf(TwoOperator(g, l, m), Identity(2));
    var op := TwoOperator(g, l + 1, m + 1);
    forall r, c | 0 <= r < Pow2(m + 1) && 0 <= c < Pow2(m + 1)
      ensures r < |k| && c < |k[r]| && k[r][c] == op[r][c]
    {
      TwoShiftEntry(g, l, m, r, c);
    }
    SameMatrix(k, op, Pow2(m + 1));
  }

  lemma TwoShiftEntry(g: Matrix, l: nat, m: nat, r: nat, c: nat)
    requires Square(g, 4) && r < Pow2(m + 1) && c < Pow2(m + 1)
    ensures Square(KronOf(TwoOperator(g, l, m), Identity(2)), Pow2(m + 1))
    ensures KronOf(TwoOperator(g, l, m), Identity(2))[r][c] == TwoCell(g, l + 1, r, c)
  {
    var a := TwoOperator(g, l, m);
    var f := Identity(2);
    assert |a| == Width(a) == Pow2(m) && |f| == Width(f) == 2;
    assert Pow2(m + 1) == Pow2(m) * 2;
    KronSquare(a, f, Pow2(m), 2);
    KronAt(a, f, r, c);
    assert r / 2 < Pow2(m) && c / 2 < Pow2(m);
    assert KronOf(a, f)[r][c] == Mul(a[r / 2][c / 2], f[r % 2][c % 2]);
    assert a[r / 2][c / 2] == TwoCell(g, l, r / 2, c / 2);
    assert f[r % 2][c % 2] == if r % 2 == c % 2 then One else Zero;
    ShiftCell(g, l, r, c);
  }

  lemma ShiftCell(g: Matrix, l: nat, r: nat, c: nat)
    requires Square(g, 4)
    ensures Mul(TwoCell(g, l, r / 2, c / 2), if r % 2 == c % 2 then One else Zero) == TwoCell(g, l + 1, r, c)
  {
    Units(TwoCell(g, l, r / 2, c / 2));
    if r % 2 == c % 2 {
      ShiftSame(g, l, r, c);
    } else {
      ShiftDiffer(g, l, r, c);
    }
  }

  /** When bit 0 of row and column agree, the entry is that of the smaller operator. */
  lemma ShiftSame(g: Matrix, l: nat, r: nat, c: nat)
    requires Square(g, 4) && r % 2 == c % 2
    ensures TwoCell(g, l, r / 2, c / 2) == TwoCell(g, l + 1, r, c)
  {
    var p := PairOf(c, l + 1);
    WithPairShift(r, l, p);
    WithPairShift(c, l, 0);
    var w := WithPair(r / 2, l, p);
    assert (c == 2 * w + r % 2) == (c / 2 == w);
  }

  /** When bit 0 of row and column differ, the entry is zero. */
  lemma ShiftDiffer(g: Matrix, l: nat, r: nat, c: nat)
    requires Square(g, 4) && r % 2 != c % 2
    ensures TwoCell(g, l + 1, r, c) == Zero
  {
    var p := PairOf(c, l + 1);
    WithPairShift(r, l, p);
  }

  /** kron(I_(2^k), gate) places the gate on bits 1 and 0. */
  lemma TwoBase(g: Matrix, k: nat)
    requires Square(g, 4)
    ensures KronOf(Identity(Pow2(k)), g) == TwoOperator(g, 0, k + 2)
  {
    var a := KronOf(Identity(Pow2(k)), g);
    var op := TwoOperator(g, 0, k + 2);
    forall r, c | 0 <= r < Pow2(k + 2) && 0 <= c < Pow2(k + 2)
      ensures r < |a| && c < |a[r]| && a[r][c] == op[r][c]
    {
      TwoBaseEntry(g, k, r, c);
    }
    TwoBaseEntry(g, k, 0, 0);
    SameMatrix(a, op, Pow2(k + 2));
  }

  lemma TwoBaseEntry(g: Matrix, k: nat, r: nat, c: nat)
    requires Square(g, 4) && r < Pow2(k + 2) && c < Pow2(k + 2)
    ensures Square(KronOf(Identity(Pow2(k)), g), Pow2(k + 2))
    ensures KronOf(Identity(Pow2(k)), g)[r][c] == TwoCell(g, 0, r, c)
  {
    var a := Identity(Pow2(k));
    assert |a| == Width(a) == Pow2(k) && |g| == Width(g) == 4;
    assert Pow2(k + 2) == Pow2(k) * 4;
    KronAt(a, g, r, c);
    PairLow(r, PairOf(c, 0));
    PairLow(c, 0);
    Units(g[r % 4][c % 4]);
  }

  /** Below the gate, each remaining position adds an identity factor and shifts the pair up. */
  lemma {:induction false} FoldBelow(g: Matrix, high: int, low: int, n: nat, i: int, p: nat)
    requires Square(g, 4) && -1 <= i < p && p + 1 < n + 1 && i < high
    requires low > i || low < 0
    ensures TwoFold(g, high, low, i, true, TwoOperator(g, p - (i + 1), n - (i + 1))) == TwoOperator(g, p, n)
    decreases i + 2
  {
    if i >= 0 {
      TwoShift(g, p - (i + 1), n - (i + 1));
      FoldBelow(g, high, low, n, i - 1, p);
    }
  }

  /**
   * Above the gate each position adds an identity factor; at `high` the gate
   * goes in on bits high and high - 1, and the positions below add identities.
   */
  lemma {:induction false} FoldAbove(g: Matrix, high: int, low: int, n: nat, i: int)
    requires Square(g, 4) && 1 <= high <= i < n
    requires low >= high - 1 || low < 0
    requires low <= high
    ensures TwoFold(g, high, low, i, false, Identity(Pow2(n - 1 - i))) == TwoOperator(g, high - 1, n)
    decreases i
  {
    if i == high {
      TwoBase(g, n - 1 - high);
      FoldBelow(g, high, low, n, high - 2, high - 1);
    } else {
      IdentityGrows(n - 1 - i);
      FoldAbove(g, high, low, n, i - 1);
    }
  }

  /** With `high` outside [0, n) the gate is never inserted and every factor is the identity. */
  lemma {:induction false} FoldIdentity(g: Matrix, high: int, low: int, n: nat, i: int)
    requires Square(g, 4) && -1 <= i < n && !(0 <= high < n)
    ensures TwoFold(g, high, low, i, false, Identity(Pow2(n - 1 - i))) == Identity(Pow2(n))
    decreases i + 2
  {
    if i >= 0 {
      IdentityGrows(n - 1 - i);
      FoldIdentity(g, high, low, n, i - 1);
    }
  }

  /** log2 of how much wider the fold makes its accumulator. */
  function TwoExponent(high: int, low: int, i: int, inserted: bool): nat
    decreases i + 2
  {
    if i < 0 then 0
    else if i == high then 2 + TwoExponent(high, low, i - 2, true)
    else if i == low && inserted then TwoExponent(high, low, i - 1, inserted)
    else 1 + TwoExponent(high, low, i - 1, inserted)
  }

  lemma {:induction false} TwoFoldShape(g: Matrix, high: int, low: int, i: int, inserted: bool, acc: Matrix, d: nat)
    requires Square(g, 4) && Square(acc, d)
    ensures Square(TwoFold(g, high, low, i, inserted, acc), d * Pow2(TwoExponent(high, low, i, inserted)))
    decreases i + 2
  {
    if i < 0 {
    } else if i == high {
      var e := TwoExponent(high, low, i - 2, true);
      KronSquare(acc, g, d, 4);
      TwoFoldShape(g, high, low, i - 2, true, KronOf(acc, g), d * 4);
      Pow2Scale(d, 2, e);
    } else if i == low && inserted {
      TwoFoldShape(g, high, low, i - 1, inserted, acc, d);
    } else {
      var e := TwoExponent(high, low, i - 1, inserted);
      KronSquare(acc, Identity(2), d, 2);
      TwoFoldShape(g, high, low, i - 1, inserted, KronOf(acc, Identity(2)), d * 2);
      Pow2Scale(d, 1, e);
    }
  }

  lemma KronSquare(a: Matrix, b: Matrix, p: nat, q: nat)
    requires Square(a, p) && Square(b, q)
    ensures Square(KronOf(a, b), p * q)
  {
    if p > 0 && q > 0 {
      assert Width(a) == p && Width(b) == q;
    }
  }

  lemma Pow2Scale(d: nat, k: nat, e: nat)
    ensures d * Pow2(k) * Pow2(e) == d * Pow2(e + k)
  {
    Pow2Add(k, e);
    assert d * Pow2(k) * Pow2(e) == d * (Pow2(k) * Pow2(e));
  }

  /** Above `high` nothing is skipped; the gate counts for two positions. */
  lemma {:induction false} ExponentAbove(high: int, low: int, i: int)
    requires 0 <= high <= i && low <= high
    ensures TwoExponent(high, low, i, false) == i - high + 2 + TwoExponent(high, low, high - 2, true)
    decreases i
  {
    if i > high {
      ExponentAbove(high, low, i - 1);
    }
  }

  /** Below the gate every position counts once, except `low` when it is among them. */
  lemma {:induction false} ExponentBelow(high: int, low: int, i: int)
    requires -2 <= i < high
    ensures TwoExponent(high, low, i, true) == if i < 0 then 0 else i + 1 - (if 0 <= low <= i then 1 else 0)
    decreases i + 2
  {
    if i >= 0 {
      ExponentBelow(high, low, i - 1);
    }
  }

  /** Row k of the pair operator has its four non-zero entries at k with the pair set to 0, 1, 2 and 3. */
  lemma TwoRow(v: Vector, g: Matrix, l: nat, n: nat, k: nat)
    requires Square(g, 4) && |v| == Pow2(n) && l + 1 < n && k < |v|
    ensures Dot(TwoOperator(g, l, n)[k], v, |v|) == TwoTerms(v, g, l, n, k)
  {
    var row := TwoOperator(g, l, n)[k];
    var c0, c1, c2, c3 := WithPair(k, l, 0), WithPair(k, l, 1), WithPair(k, l, 2), WithPair(k, l, 3);
    WithPairOffset(k, l, 1);
    WithPairOffset(k, l, 2);
    WithPairOffset(k, l, 3);
    WithPairBelow(k, l, 3, n);
    forall c | 0 <= c < |v| && c != c0 && c != c1 && c != c2 && c != c3
      ensures row[c] == Zero
    {
      TwoCellZero(g, l, k, c);
    }
    TwoCellAt(g, l, k, 0);
    TwoCellAt(g, l, k, 1);
    TwoCellAt(g, l, k, 2);
    TwoCellAt(g, l, k, 3);
    DotFour(row, v, c0, c1, c2, c3);
  }

  /** Off the four columns of its pair, a row of the pair operator is zero. */
  lemma TwoCellZero(g: Matrix, l: nat, k: nat, c: nat)
    requires Square(g, 4)
    requires c != WithPair(k, l, 0) && c != WithPair(k, l, 1) && c != WithPair(k, l, 2) && c != WithPair(k, l, 3)
    ensures TwoCell(g, l, k, c) == Zero
  {
    var q := PairOf(c, l);
    assert q == 0 || q == 1 || q == 2 || q == 3;
  }

  /** On column k-with-pair-p, row k of the pair operator holds gate[pair of k][p]. */
  lemma TwoCellAt(g: Matrix, l: nat, k: nat, p: nat)
    requires Square(g, 4) && p < 4
    ensures TwoCell(g, l, k, WithPair(k, l, p)) == g[PairOf(k, l)][p]
  {
    PairOfWithPair(k, l, p);
  }

  /** A running sum whose only non-zero terms are at c0 < c1 < c2 < c3 adds those four, in order. */
  lemma DotFour(row: seq<C>, v: Vector, c0: nat, c1: nat, c2: nat, c3: nat)
    requires c0 < c1 < c2 < c3 < |row| && |row| == |v|
    requires forall c :: 0 <= c < |v| && c != c0 && c != c1 && c != c2 && c != c3 ==> row[c] == Zero
    ensures Dot(row, v, |v|) ==
      Add(Add(Add(Mul(row[c0], v[c0]), Mul(row[c1], v[c1])), Mul(row[c2], v[c2])), Mul(row[c3], v[c3]))
  {
    DotZeroRange(row, v, c3 + 1, |v|);
    DotZeroRange(row, v, c2 + 1, c3);
    DotZeroRange(row, v, c1 + 1, c2);
    DotZeroRange(row, v, c0 + 1, c1);
    DotZeroRange(row, v, 0, c0);
    Units(Mul(row[c0], v[c0]));
  }

  /** The pair operator, multiplied into a state of length 2^n, is the bit-local update of bits l+1 and l. */
  lemma TwoQubitFold(v: Vector, g: Matrix, l: nat, n: nat)
    requires Square(g, 4) && |v| == Pow2(n) && l + 1 < n
    ensures MatVec(TwoOperator(g, l, n), v) == Returned(TwoQubitUpdate(v, g, l, n))
  {
    var op := TwoOperator(g, l, n);
    forall k | 0 <= k < |v|
      ensures Dot(op[k], v, |v|) == TwoQubitUpdate(v, g, l, n)[k]
    {
      TwoRow(v, g, l, n, k);
    }
    assert !exists i :: 0 <= i < |op| && |op[i]| < |v|;
    assert seq(|op|, i requires 0 <= i < |op| => Dot(op[i], v, |v|)) == TwoQubitUpdate(v, g, l, n);
  }

  /** The identity operator leaves a state of its size unchanged. */
  lemma MatVecIdentity(v: Vector, n: nat)
    requires |v| == Pow2(n)
    ensures MatVec(Identity(Pow2(n)), v) == Returned(v)
  {
    SingleOutside(Identity(2), -1, n);
    SingleQubitFold(v, Identity(2), -1, n);
  }

  /** The operator of applyTwoQubitGate on a state of length 2^n gives the case-by-case effect. */
  lemma TwoQubitCases(v: Vector, g: Matrix, control: int, target: int, n: nat)
    requires Square(g, 4) && |v| == Pow2(n)
    ensures MatVec(TwoQubitOperator(g, control, target, n), v) == TwoQubitEffect(v, g, control, target, n)
  {
    var high, low := Max(control, target), Min(control, target);
    var op := TwoQubitOperator(g, control, target, n);
    assert Identity(1) == Identity(Pow2(n - 1 - (n - 1)));
    if !(0 <= high < n) {
      FoldIdentity(g, high, low, n, n - 1);
      MatVecIdentity(v, n);
    } else if high == 0 {
    } else if 0 <= low < high - 1 {
      TwoFoldShape(g, high, low, n - 1, false, Identity(1), 1);
      ExponentAbove(high, low, n - 1);
      ExponentBelow(high, low, high - 2);
      Pow2Monotone(n - 1, n);
      assert Pow2(n) == 2 * Pow2(n - 1);
      MatVecTooLong(op, v, Pow2(n - 1));
    } else {
      FoldAbove(g, high, low, n, n - 1);
      TwoQubitFold(v, g, high - 1, n);
    }
  }

  /** Only the larger and the smaller of the two indices are used, so swapping control and target changes nothing. */
  lemma TwoQubitSymmetric(g: Matrix, control: int, target: int, n: nat)
    requires Square(g, 4)
    ensures TwoQubitOperator(g, control, target, n) == TwoQubitOperator(g, target, control, n)
  {
  }

  /** A gate whose higher qubit is 0 covers bits 0 and -1: the operator, and the state, double in size. */
  lemma TwoQubitGrows(v: Vector, g: Matrix, control: int, target: int, n: nat)
    requires Square(g, 4) && |v| == Pow2(n) && 0 < n && Max(control, target) == 0
    ensures TwoQubitEffect(v, g, control, target, n).Returned?
    ensures |TwoQubitEffect(v, g, control, target, n).value| == 2 * |v|
  {
    var high, low := Max(control, target), Min(control, target);
    var op := TwoQubitOperator(g, control, target, n);
    TwoFoldShape(g, high, low, n - 1, false, Identity(1), 1);
    ExponentAbove(high, low, n - 1);
    ExponentBelow(high, low, -2);
    assert Pow2(n + 1) == 2 * Pow2(n);
    assert Square(op, 2 * |v|);
  }

  /** The product of two 2 x 2 matrices. */
  function MatMul2(h: Matrix, g: Matrix): (m: Matrix)
    requires Square(h, 2) && Square(g, 2)
    ensures Square(m, 2)
  {
    seq(2, i requires 0 <= i < 2 => seq(2, j requires 0 <= j < 2 => Add(Mul(h[i][0], g[0][j]), Mul(h[i][1], g[1][j]))))
  }

  /** The four entries of a 2 x 2 product written out. */
  lemma MatMul2Entries(h: Matrix, g: Matrix)
    requires Square(h, 2) && Square(g, 2)
    ensures MatMul2(h, g) ==
      [[Add(Mul(h[0][0], g[0][0]), Mul(h[0][1], g[1][0])), Add(Mul(h[0][0], g[0][1]), Mul(h[0][1], g[1][1]))],
       [Add(Mul(h[1][0], g[0][0]), Mul(h[1][1], g[1][0])), Add(Mul(h[1][0], g[0][1]), Mul(h[1][1], g[1][1]))]]
  {
    var m := MatMul2(h, g);
    assert m[0] == [Add(Mul(h[0][0], g[0][0]), Mul(h[0][1], g[1][0])), Add(Mul(h[0][0], g[0][1]), Mul(h[0][1], g[1][1]))];
    assert m[1] == [Add(Mul(h[1][0], g[0][0]), Mul(h[1][1], g[1][0])), Add(Mul(h[1][0], g[0][1]), Mul(h[1][1], g[1][1]))];
  }

  lemma IdentityTwo()
    ensures Identity(2) == [[One, Zero], [Zero, One]]
  {
    assert Identity(2)[0] == [One, Zero];
    assert Identity(2)[1] == [Zero, One];
  }

  /** Applying g and then h to the same bit is applying their product h * g. */
  lemma SingleCompose(v: Vector, g: Matrix, h: Matrix, t: int, n: nat)
    requires Square(g, 2) && Square(h, 2) && |v| == Pow2(n)
    ensures SingleQubitUpdate(SingleQubitUpdate(v, g, t, n), h, t, n) == SingleQubitUpdate(v, MatMul2(h, g), t, n)
  {
    if 0 <= t < n {
      var w := SingleQubitUpdate(v, g, t, n);
      forall k | 0 <= k < |v|
        ensures SingleQubitUpdate(w, h, t, n)[k] == SingleQubitUpdate(v, MatMul2(h, g), t, n)[k]
      {
        var k0, k1 := WithBit(k, t, 0), WithBit(k, t, 1);
        WithBitBelow(k, t, 0, n);
        WithBitBelow(k, t, 1, n);
        BitOfWithBit(k, t, 0, t);
        BitOfWithBit(k, t, 1, t);
        WithBitTwice(k, t, 0, 0);
        WithBitTwice(k, t, 0, 1);
        WithBitTwice(k, t, 1, 0);
        WithBitTwice(k, t, 1, 1);
        var b := Bit(k, t);
        assert w[k0] == Add(Mul(g[0][0], v[k0]), Mul(g[0][1], v[k1]));
        assert w[k1] == Add(Mul(g[1][0], v[k0]), Mul(g[1][1], v[k1]));
        Regroup(h[b][0], h[b][1], g[0][0], g[0][1], g[1][0], g[1][1], v[k0], v[k1]);
      }
    }
  }

  /** The 2 x 2 identity leaves every state as it is. */
  lemma SingleIdentity(v: Vector, t: int, n: nat)
    requires |v| == Pow2(n)
    ensures SingleQubitUpdate(v, Identity(2), t, n) == v
  {
    if 0 <= t < n {
      forall k | 0 <= k < |v|
        ensures SingleQubitUpdate(v, Identity(2), t, n)[k] == v[k]
      {
        SingleIdentityAt(v, t, n, k);
      }
    }
  }

  lemma SingleIdentityAt(v: Vector, t: nat, n: nat, k: nat)
    requires |v| == Pow2(n) && t < n && k < |v|
    ensures SingleQubitUpdate(v, Identity(2), t, n)[k] == v[k]
  {
    WithBitBelow(k, t, 0, n);
    WithBitBelow(k, t, 1, n);
    WithBitOwn(k, t);
    var c0, c1 := WithBit(k, t, 0), WithBit(k, t, 1);
    var id := Identity(2);
    assert SingleQubitUpdate(v, id, t, n)[k] == Add(Mul(id[Bit(k, t)][0], v[c0]), Mul(id[Bit(k, t)][1], v[c1]));
    Units(v[c0]);
    Units(v[c1]);
  }
}
