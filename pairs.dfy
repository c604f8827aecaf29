/** The order in which both pairwise-contrast helpers visit level pairs:
    `for i in range(k): for j in range(i + 1, k)`. */
module PairOrder {

  /** The pairs (i, j), (i, j + 1), ..., (i, k - 1). */
  function Row(i: nat, j: nat, k: nat): (r: seq<(nat, nat)>)
    requires j <= k
    ensures |r| == k - j
    ensures forall t :: 0 <= t < |r| ==> r[t] == (i, j + t)
  {
    seq(k - j, d requires 0 <= d < k - j => (i, j + d))
  }

  /** The pairs the nested loops visit once the outer index has reached i. */
  function PairsFrom(i: nat, k: nat): (r: seq<(nat, nat)>)
    ensures forall t :: 0 <= t < |r| ==> i <= r[t].0 < r[t].1 < k
    decreases k - i
  {
    if i >= k then [] else Row(i, i + 1, k) + PairsFrom(i + 1, k)
  }

  /** All pairs i < j of k levels, in loop order. */
  function Pairs(k: nat): (r: seq<(nat, nat)>)
    ensures forall t :: 0 <= t < |r| ==> r[t].0 < r[t].1 < k
  {
    PairsFrom(0, k)
  }

  /** One step of the inner loop. */
  lemma RowStep(i: nat, j: nat, k: nat)
    requires j < k
    ensures Row(i, j, k) == [(i, j)] + Row(i, j + 1, k)
  {
  }

  /** One step of the outer loop. */
  lemma PairsFromStep(i: nat, k: nat)
    requires i < k
    ensures PairsFrom(i, k) == Row(i, i + 1, k) + PairsFrom(i + 1, k)
  {
  }

  lemma {:induction false} PairsFromCount(i: nat, k: nat)
    requires i <= k
    ensures 2 * |PairsFrom(i, k)| == (k - i) * (k - i - 1)
    decreases k - i
  {
    if i < k {
      PairsFromCount(i + 1, k);
      var n := k - i;
      assert (n - 1) * (n - 2) + 2 * (n - 1) == n * (n - 1);
    }
  }

  /** k levels give k(k-1)/2 pairs. */
  lemma PairsCount(k: nat)
    ensures |Pairs(k)| == k * (k - 1) / 2
  {
    PairsFromCount(0, k);
  }

  /** A pair is visited exactly when i < j < k (once the outer loop is at `from`). */
  lemma {:induction false} PairsFromMembership(from: nat, k: nat, i: nat, j: nat)
    ensures (i, j) in PairsFrom(from, k) <==> from <= i < j < k
    decreases k - from
  {
    if from < k {
      PairsFromMembership(from + 1, k, i, j);
      if i == from && i < j < k {
        assert Row(from, from + 1, k)[j - from - 1] == (i, j);
      }
    }
  }

  lemma PairsMembership(k: nat, i: nat, j: nat)
    ensures (i, j) in Pairs(k) <==> i < j < k
  {
    PairsFromMembership(0, k, i, j);
  }

  predicate LexLess(p: (nat, nat), q: (nat, nat)) {
    p.0 < q.0 || (p.0 == q.0 && p.1 < q.1)
  }

  /** Pairs come in strictly increasing lexicographic order, so none repeats. */
  lemma {:induction false} PairsFromOrdered(from: nat, k: nat)
    ensures forall a, b :: 0 <= a < b < |PairsFrom(from, k)| ==>
      LexLess(PairsFrom(from, k)[a], PairsFrom(from, k)[b])
    decreases k - from
  {
    if from < k {
      PairsFromOrdered(from + 1, k);
      var row, rest := Row(from, from + 1, k), PairsFrom(from + 1, k);
      var all := row + rest;
      forall a, b | 0 <= a < b < |all| ensures LexLess(all[a], all[b]) {
        if b < |row| {
        } else if a < |row| {
          assert all[b] == rest[b - |row|];
        } else {
          assert all[a] == rest[a - |row|] && all[b] == rest[b - |row|];
        }
      }
    }
  }

  lemma PairsOrdered(k: nat)
    ensures forall a, b :: 0 <= a < b < |Pairs(k)| ==> LexLess(Pairs(k)[a], Pairs(k)[b])
  {
    PairsFromOrdered(0, k);
  }
}
