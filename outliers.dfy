/** Per-group 1.5 x IQR outlier masking (`_mask_series`, `iqr_outlier_filter`).
    A numeric series is a sequence of optional reals, `None` standing for a missing
    value (NaN). */
module Outliers {
  import opened Wrappers
  import opened Quartiles

  /** The non-missing values, in order (what `np.nanpercentile` looks at). */
  function Present(s: seq<Option<real>>): (r: seq<real>)
    ensures |r| <= |s|
  {
    if |s| == 0 then []
    else (if s[0].Some? then [s[0].value] else []) + Present(s[1..])
  }

  /** The closed interval [q1 - 1.5 iqr, q3 + 1.5 iqr] of a series, or `None` when a
      guard leaves the series alone: fewer than 3 values, or an IQR of zero. */
  function Fences(s: seq<Option<real>>): (f: Option<(real, real)>)
  {
    var vals := Sort(Present(s));
    if |vals| < 3 then None
    else
      var q1 := Percentile(vals, 25.0);
      var q3 := Percentile(vals, 75.0);
      var iqr := q3 - q1;
      if iqr == 0.0 then None
      else Some((q1 - 1.5 * iqr, q3 + 1.5 * iqr))
  }

  /** `s.where(s.isna() | ((s >= lower) & (s <= upper)))` for one value. */
  function MaskValue(x: Option<real>, f: Option<(real, real)>): Option<real> {
    if f.None? || x.None? || (f.value.0 <= x.value <= f.value.1) then x else None
  }

  /** `_mask_series`. */
  function MaskSeries(s: seq<Option<real>>): (r: seq<Option<real>>)
    ensures |r| == |s|
  {
    if |s| == 0 then s
    else
      var f := Fences(s);
      if f.None? then s
      else seq(|s|, i requires 0 <= i < |s| => MaskValue(s[i], f))
  }

  /** The quartiles are ordered, so when the fences exist the IQR is positive and the
      interval strictly contains [q1, q3]. */
  lemma FencesOrdered(s: seq<Option<real>>)
    requires Fences(s).Some?
    ensures var vals := Sort(Present(s));
      && |vals| >= 3
      && var q1 := Percentile(vals, 25.0);
         var q3 := Percentile(vals, 75.0);
         && q1 < q3
         && Fences(s) == Some((q1 - 1.5 * (q3 - q1), q3 + 1.5 * (q3 - q1)))
         && Fences(s).value.0 < q1 && q3 < Fences(s).value.1
  {
    var vals := Sort(Present(s));
    SortSorted(Present(s));
    PercentileMonotone(vals, 25.0, 75.0);
  }

  /** The guards: an empty series, fewer than three values, or a zero IQR leave the
      series as it was. */
  lemma MaskGuards(s: seq<Option<real>>)
    ensures |s| == 0 ==> MaskSeries(s) == s
    ensures |Present(s)| < 3 ==> MaskSeries(s) == s
    ensures (|Present(s)| >= 3 && var vals := Sort(Present(s));
             Percentile(vals, 75.0) - Percentile(vals, 25.0) == 0.0) ==> MaskSeries(s) == s
  {
  }

  /** Otherwise a value is kept exactly when it is missing or lies in the closed
      interval, and becomes missing when it does not. */
  lemma MaskKeeps(s: seq<Option<real>>, i: nat)
    requires i < |s| && Fences(s).Some?
    ensures var (lower, upper) := Fences(s).value;
      && (MaskSeries(s)[i] == s[i] <==> s[i].None? || lower <= s[i].value <= upper)
      && (MaskSeries(s)[i] != s[i] ==> MaskSeries(s)[i].None?)
  {
  }

  /** Masking never invents values: each entry is the original or missing. */
  lemma MaskOnlyRemoves(s: seq<Option<real>>)
    ensures forall i :: 0 <= i < |s| ==> MaskSeries(s)[i] == s[i] || MaskSeries(s)[i].None?
  {
  }

  /** Values between the quartiles always survive. */
  lemma MaskKeepsMiddle(s: seq<Option<real>>, i: nat)
    requires i < |s| && s[i].Some? && |Present(s)| >= 3
    requires var vals := Sort(Present(s));
      Percentile(vals, 25.0) <= s[i].value <= Percentile(vals, 75.0)
    ensures MaskSeries(s)[i] == s[i]
  {
    if Fences(s).Some? {
      FencesOrdered(s);
    }
  }

  lemma ExamplePresent(s: seq<Option<real>>)
    requires s == [Some(1.0), Some(2.0), Some(3.0), Some(4.0), Some(100.0)]
    ensures Present(s) == [1.0, 2.0, 3.0, 4.0, 100.0]
  {
    assert Present(s[4..]) == [100.0];
    assert Present(s[3..]) == [4.0, 100.0];
    assert Present(s[2..]) == [3.0, 4.0, 100.0];
    assert Present(s[1..]) == [2.0, 3.0, 4.0, 100.0];
  }

  lemma ExampleFences(s: seq<Option<real>>)
    requires s == [Some(1.0), Some(2.0), Some(3.0), Some(4.0), Some(100.0)]
    ensures Fences(s) == Some((-1.0, 7.0))
  {
    ExamplePresent(s);
    var v := Present(s);
    SortOfSorted(v);
    assert Rank(5, 25.0) == 1.0 && Rank(5, 75.0) == 3.0;
    assert Percentile(v, 25.0) == 2.0;
    assert Percentile(v, 75.0) == 4.0;
  }

  /** [1, 2, 3, 4, 100]: quartiles 2 and 4, fences -1 and 7, so 100 is masked. */
  lemma MaskExample(s: seq<Option<real>>)
    requires s == [Some(1.0), Some(2.0), Some(3.0), Some(4.0), Some(100.0)]
    ensures MaskSeries(s) == [Some(1.0), Some(2.0), Some(3.0), Some(4.0), None]
  {
    ExampleFences(s);
    MaskWith(s, (-1.0, 7.0));
  }

  /** With fences f, the mask applies f to every value. */
  lemma MaskWith(s: seq<Option<real>>, f: (real, real))
    requires Fences(s) == Some(f)
    ensures MaskSeries(s) == seq(|s|, i requires 0 <= i < |s| => MaskValue(s[i], Some(f)))
  {
  }

  // ---------------------------------------------------------------- grouping

  /** The values of the rows whose group key is k, in row order. */
  function GroupValues<K(==)>(xs: seq<Option<real>>, keys: seq<K>, k: K): (r: seq<Option<real>>)
    requires |xs| == |keys|
    ensures |r| <= |xs|
  {
    if |xs| == 0 then []
    else (if keys[0] == k then [xs[0]] else []) + GroupValues(xs[1..], keys[1..], k)
  }

  /** How often k occurs in s. */
  function Count<K(==)>(s: seq<K>, k: K): nat {
    if |s| == 0 then 0 else (if s[0] == k then 1 else 0) + Count(s[1..], k)
  }

  /** `g[v].apply(_mask_series)` realigned to the rows: each value is masked with the
      fences of its own group. */
  function MaskByGroup<K(==)>(xs: seq<Option<real>>, keys: seq<K>): (r: seq<Option<real>>)
    requires |xs| == |keys|
    ensures |r| == |xs|
  {
    seq(|xs|, i requires 0 <= i < |xs| => MaskValue(xs[i], Fences(GroupValues(xs, keys, keys[i]))))
  }

  /** Row i is the Count(keys[..i], keys[i])-th member of its group. */
  lemma {:induction false} GroupValuesAt<K>(xs: seq<Option<real>>, keys: seq<K>, i: nat)
    requires |xs| == |keys| && i < |xs|
    ensures Count(keys[..i], keys[i]) < |GroupValues(xs, keys, keys[i])|
    ensures GroupValues(xs, keys, keys[i])[Count(keys[..i], keys[i])] == xs[i]
  {
    if i > 0 {
      GroupValuesAt(xs[1..], keys[1..], i - 1);
      assert keys[1..][..i - 1] == keys[..i][1..];
    }
  }

  /** Realigning per-group results by position gives the same column: row i receives
      entry number Count(keys[..i], keys[i]) of `_mask_series` applied to its group. */
  lemma MaskByGroupAgrees<K>(xs: seq<Option<real>>, keys: seq<K>, i: nat)
    requires |xs| == |keys| && i < |xs|
    ensures var g := GroupValues(xs, keys, keys[i]);
      && Count(keys[..i], keys[i]) < |g|
      && MaskByGroup(xs, keys)[i] == MaskSeries(g)[Count(keys[..i], keys[i])]
  {
    GroupValuesAt(xs, keys, i);
  }

  /** A group holding every row is the whole column. */
  lemma {:induction false} SingleGroup<K>(xs: seq<Option<real>>, keys: seq<K>, k: K)
    requires |xs| == |keys| && forall i :: 0 <= i < |keys| ==> keys[i] == k
    ensures GroupValues(xs, keys, k) == xs
  {
    if |xs| > 0 {
      SingleGroup(xs[1..], keys[1..], k);
    }
  }

  /** With one group, the grouped mask is `_mask_series` of the whole column. */
  lemma SingleGroupMask<K>(xs: seq<Option<real>>, keys: seq<K>, k: K)
    requires |xs| == |keys| && forall i :: 0 <= i < |keys| ==> keys[i] == k
    ensures MaskByGroup(xs, keys) == MaskSeries(xs)
  {
    SingleGroup(xs, keys, k);
  }
}
