/** numpy's default percentile: sort the values, then interpolate linearly at rank
    (n - 1) * q / 100. */
module Quartiles {

  predicate Sorted(v: seq<real>) {
    forall i, j :: 0 <= i <= j < |v| ==> v[i] <= v[j]
  }

  /** Insert x into an ascending sequence. */
  function Insert(x: real, v: seq<real>): (r: seq<real>)
    ensures |r| == |v| + 1
    ensures multiset(r) == multiset(v) + multiset{x}
  {
    if |v| == 0 || x <= v[0] then [x] + v
    else
      assert v == [v[0]] + v[1..];
      [v[0]] + Insert(x, v[1..])
  }

  lemma {:induction false} InsertSorted(x: real, v: seq<real>)
    requires Sorted(v)
    ensures Sorted(Insert(x, v))
  {
    if |v| > 0 && x > v[0] {
      InsertSorted(x, v[1..]);
      var r := Insert(x, v[1..]);
      assert forall t :: 0 <= t < |r| ==> v[0] <= r[t] by {
        forall t | 0 <= t < |r| ensures v[0] <= r[t] {
          assert r[t] in multiset(r);
          assert r[t] in multiset(v[1..]) + multiset{x};
          if r[t] in multiset(v[1..]) {
            var u :| 0 <= u < |v[1..]| && v[1..][u] == r[t];
            assert v[u + 1] == r[t];
          }
        }
      }
    }
  }

  /** The values in ascending order (insertion sort). */
  function Sort(v: seq<real>): (r: seq<real>)
    ensures |r| == |v|
    ensures multiset(r) == multiset(v)
  {
    if |v| == 0 then []
    else
      assert v == [v[0]] + v[1..];
      Insert(v[0], Sort(v[1..]))
  }

  lemma {:induction false} SortSorted(v: seq<real>)
    ensures Sorted(Sort(v))
  {
    if |v| > 0 {
      SortSorted(v[1..]);
      InsertSorted(v[0], Sort(v[1..]));
    }
  }

  /** Linear interpolation at a real rank between 0 and n - 1. */
  function Interp(v: seq<real>, rank: real): real
    requires |v| > 0 && 0.0 <= rank <= (|v| - 1) as real
  {
    var lo := rank.Floor;
    var frac := rank - lo as real;
    if lo + 1 < |v| then v[lo] + frac * (v[lo + 1] - v[lo]) else v[lo]
  }

  /** The rank of the q-th percentile among n values. */
  function Rank(n: nat, q: real): (r: real)
    requires n > 0 && 0.0 <= q <= 100.0
    ensures 0.0 <= r <= (n - 1) as real
  {
    var r := (n - 1) as real * q / 100.0;
    assert (n - 1) as real * q <= (n - 1) as real * 100.0;
    r
  }

  /** `np.percentile(v, q)` for sorted v. */
  function Percentile(v: seq<real>, q: real): real
    requires |v| > 0 && 0.0 <= q <= 100.0
  {
    Interp(v, Rank(|v|, q))
  }

  lemma MulNonNeg(a: real, b: real)
    requires a >= 0.0 && b >= 0.0
    ensures a * b >= 0.0
  {
  }

  lemma MulAtMost(a: real, b: real)
    requires 0.0 <= a <= 1.0 && b >= 0.0
    ensures a * b <= b
  {
    MulNonNeg(1.0 - a, b);
    assert b - a * b == (1.0 - a) * b;
  }

  /** A point of a segment lies between its ends. */
  lemma Segment(a: real, b: real, t: real)
    requires a <= b && 0.0 <= t <= 1.0
    ensures a <= a + t * (b - a) <= b
  {
    MulNonNeg(t, b - a);
    MulAtMost(t, b - a);
  }

  /** An interpolated value lies between its two neighbours. */
  lemma InterpBetween(v: seq<real>, rank: real)
    requires Sorted(v) && |v| > 0 && 0.0 <= rank <= (|v| - 1) as real
    ensures var lo := rank.Floor;
      && v[lo] <= Interp(v, rank)
      && (lo + 1 < |v| ==> Interp(v, rank) <= v[lo + 1])
  {
    var lo := rank.Floor;
    var frac := rank - lo as real;
    assert 0.0 <= frac < 1.0;
    if lo + 1 < |v| {
      var a, b := v[lo], v[lo + 1];
      assert a <= b;
      Segment(a, b, frac);
    }
  }

  /** Interpolation is monotone in the rank. */
  lemma InterpMonotone(v: seq<real>, r1: real, r2: real)
    requires Sorted(v) && |v| > 0 && 0.0 <= r1 <= r2 <= (|v| - 1) as real
    ensures Interp(v, r1) <= Interp(v, r2)
  {
    var lo1, lo2 := r1.Floor, r2.Floor;
    InterpBetween(v, r1);
    InterpBetween(v, r2);
    if lo1 == lo2 && lo1 + 1 < |v| {
      var d := v[lo1 + 1] - v[lo1];
      var f1, f2 := r1 - lo1 as real, r2 - lo1 as real;
      MulNonNeg(f2 - f1, d);
      assert f2 * d - f1 * d == (f2 - f1) * d;
    }
  }

  lemma RankMonotone(n: nat, p: real, q: real)
    requires n > 0 && 0.0 <= p <= q <= 100.0
    ensures Rank(n, p) <= Rank(n, q)
  {
    MulNonNeg((n - 1) as real, q - p);
    assert (n - 1) as real * q - (n - 1) as real * p == (n - 1) as real * (q - p);
  }

  /** Percentiles of sorted data are monotone in q and lie between the minimum and the
      maximum. */
  lemma PercentileMonotone(v: seq<real>, p: real, q: real)
    requires Sorted(v) && |v| > 0 && 0.0 <= p <= q <= 100.0
    ensures v[0] <= Percentile(v, p) <= Percentile(v, q) <= v[|v| - 1]
  {
    var n := (|v| - 1) as real;
    RankMonotone(|v|, p, q);
    InterpMonotone(v, 0.0, Rank(|v|, p));
    InterpMonotone(v, Rank(|v|, p), Rank(|v|, q));
    InterpMonotone(v, Rank(|v|, q), n);
    assert Interp(v, 0.0) == v[0];
    assert Interp(v, n) == v[|v| - 1];
  }

  /** Sorting sorted data changes nothing. */
  lemma {:induction false} SortOfSorted(v: seq<real>)
    requires Sorted(v)
    ensures Sort(v) == v
  {
    if |v| > 0 {
      SortOfSorted(v[1..]);
      assert v == [v[0]] + v[1..];
    }
  }
}
