/** Array.prototype.filter on sequences, and what it keeps. */
module Seqs {

  /** The elements of s that satisfy keep, in their order in s. */
  function Select<T>(s: seq<T>, keep: T -> bool): (r: seq<T>)
    ensures |r| <= |s|
  {
    if s == [] then []
    else Select(s[..|s| - 1], keep) + (if keep(s[|s| - 1]) then [s[|s| - 1]] else [])
  }

  /** The positions Select keeps, in increasing order. */
  function Positions<T>(s: seq<T>, keep: T -> bool): seq<nat> {
    if s == [] then []
    else Positions(s[..|s| - 1], keep) + (if keep(s[|s| - 1]) then [|s| - 1] else [])
  }

  predicate Increasing(idx: seq<nat>) {
    forall a, b :: 0 <= a < b < |idx| ==> idx[a] < idx[b]
  }

  /** r lists the elements of s at the increasing positions idx. */
  ghost predicate PickedAt<T>(r: seq<T>, s: seq<T>, idx: seq<nat>) {
    && |idx| == |r|
    && Increasing(idx)
    && (forall k :: 0 <= k < |idx| ==> idx[k] < |s| && r[k] == s[idx[k]])
  }

  /**
   * Select keeps exactly the positions whose element satisfies keep, in
   * increasing order: the result is the order-preserving subsequence of the
   * satisfying elements.
   */
  lemma SelectPositions<T>(s: seq<T>, keep: T -> bool)
    ensures PickedAt(Select(s, keep), s, Positions(s, keep))
    ensures forall i :: 0 <= i < |s| ==> (i in Positions(s, keep) <==> keep(s[i]))
  {
    PositionsShape(s, keep);
    SelectAtPositions(s, keep);
    forall i | 0 <= i < |s|
      ensures i in Positions(s, keep) <==> keep(s[i])
    {
      PositionsIff(s, keep, i);
    }
  }

  /** There are as many positions as kept elements, each inside s, in increasing order. */
  lemma {:induction false} PositionsShape<T>(s: seq<T>, keep: T -> bool)
    ensures |Positions(s, keep)| == |Select(s, keep)|
    ensures forall k :: 0 <= k < |Positions(s, keep)| ==> Positions(s, keep)[k] < |s|
    ensures Increasing(Positions(s, keep))
  {
    if s != [] {
      var init := s[..|s| - 1];
      PositionsShape(init, keep);
      var idx, prev := Positions(s, keep), Positions(init, keep);
      assert forall k :: 0 <= k < |prev| ==> idx[k] == prev[k] && prev[k] < |init|;
    }
  }

  /** The k-th kept element is the element at the k-th position. */
  lemma {:induction false} SelectAtPositions<T>(s: seq<T>, keep: T -> bool)
    ensures forall k :: 0 <= k < |Select(s, keep)| && k < |Positions(s, keep)| ==>
      Positions(s, keep)[k] < |s| && Select(s, keep)[k] == s[Positions(s, keep)[k]]
  {
    if s != [] {
      var init := s[..|s| - 1];
      SelectAtPositions(init, keep);
      PositionsShape(init, keep);
      var idx, prev := Positions(s, keep), Positions(init, keep);
      var r, before := Select(s, keep), Select(init, keep);
      forall k | 0 <= k < |r| && k < |idx|
        ensures idx[k] < |s| && r[k] == s[idx[k]]
      {
        if k < |prev| {
          assert idx[k] == prev[k] && r[k] == before[k];
          assert s[prev[k]] == init[prev[k]];
        }
      }
    }
  }

  /** Position i is listed exactly when its element satisfies keep. */
  lemma {:induction false} PositionsIff<T>(s: seq<T>, keep: T -> bool, i: nat)
    requires i < |s|
    ensures i in Positions(s, keep) <==> keep(s[i])
  {
    var init := s[..|s| - 1];
    PositionsShape(init, keep);
    if i < |init| {
      PositionsIff(init, keep, i);
      assert s[i] == init[i];
    }
  }

  /** An element is kept exactly when it occurs in s and satisfies keep. */
  lemma SelectMembers<T>(s: seq<T>, keep: T -> bool, x: T)
    ensures x in Select(s, keep) <==> x in s && keep(x)
  {
    SelectPositions(s, keep);
    var idx := Positions(s, keep);
    if x in s && keep(x) {
      var i :| 0 <= i < |s| && s[i] == x;
      assert i in idx;
      var k :| 0 <= k < |idx| && idx[k] == i;
      assert Select(s, keep)[k] == x;
    }
  }

  /** A filter every element passes keeps the whole sequence. */
  lemma {:induction false} SelectAll<T>(s: seq<T>, keep: T -> bool)
    requires forall i :: 0 <= i < |s| ==> keep(s[i])
    ensures Select(s, keep) == s
  {
    if s != [] {
      SelectAll(s[..|s| - 1], keep);
    }
  }

  /** Two tests that agree on every element select the same elements. */
  lemma {:induction false} SelectSame<T>(s: seq<T>, keep: T -> bool, other: T -> bool)
    requires forall i :: 0 <= i < |s| ==> keep(s[i]) == other(s[i])
    ensures Select(s, keep) == Select(s, other)
  {
    if s != [] {
      SelectSame(s[..|s| - 1], keep, other);
    }
  }

  /** Filtering a sequence with one more element at the end. */
  lemma SelectSnoc<T>(s: seq<T>, x: T, keep: T -> bool)
    ensures Select(s + [x], keep) == Select(s, keep) + (if keep(x) then [x] else [])
  {
    assert (s + [x])[..|s|] == s;
  }

  /** Filtering distributes over concatenation. */
  lemma {:induction false} SelectAppend<T>(a: seq<T>, b: seq<T>, keep: T -> bool)
    ensures Select(a + b, keep) == Select(a, keep) + Select(b, keep)
    decreases |b|
  {
    if b == [] {
      assert a + b == a;
    } else {
      var init := b[..|b| - 1];
      SelectAppend(a, init, keep);
      assert (a + b)[..|a + b| - 1] == a + init;
    }
  }

  /** A filter no element passes keeps nothing. */
  lemma {:induction false} SelectNone<T>(s: seq<T>, keep: T -> bool)
    requires forall i :: 0 <= i < |s| ==> !keep(s[i])
    ensures Select(s, keep) == []
  {
    if s != [] {
      SelectNone(s[..|s| - 1], keep);
    }
  }

  // ---------------------------------------------------------------------------
  // Association lists: a JavaScript Map or plain object in insertion order
  // ---------------------------------------------------------------------------

  /** The keys of an association list, in insertion order. */
  function Keys<K, V>(g: seq<(K, V)>): (ks: seq<K>)
    ensures |ks| == |g| && forall j :: 0 <= j < |g| ==> ks[j] == g[j].0
  {
    seq(|g|, j requires 0 <= j < |g| => g[j].0)
  }

  /** No key occurs twice. */
  predicate DistinctKeys<K(==), V>(g: seq<(K, V)>) {
    forall a, b :: 0 <= a < b < |g| ==> g[a].0 != g[b].0
  }

  /** Where key k sits, or |g| when it is absent (Map.has / Map.get). */
  function IndexOfKey<K(==), V>(g: seq<(K, V)>, k: K): (j: nat)
    ensures j <= |g|
    ensures j < |g| ==> g[j].0 == k
    ensures forall i :: 0 <= i < j ==> g[i].0 != k
  {
    if g == [] then 0
    else if g[0].0 == k then 0
    else 1 + IndexOfKey(g[1..], k)
  }

  /** A key is found exactly when it is one of the keys. */
  lemma IndexOfKeyFound<K, V>(g: seq<(K, V)>, k: K)
    ensures IndexOfKey(g, k) < |g| <==> k in Keys(g)
  {
    if k in Keys(g) {
      var j :| 0 <= j < |g| && Keys(g)[j] == k;
      assert g[j].0 == k;
    }
  }
}
