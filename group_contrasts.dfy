/** The treatment-coded predicted means of a one-factor mixed model and the table of
    all pairwise contrasts between its levels (`_predicted_means_and_cov`,
    `_contrast_test` and `mixedlm_pairwise_contrasts`). */
module GroupContrasts {
  import opened Wrappers
  import opened Floats
  import opened LinAlg
  import opened PairOrder
  import opened Contrasts

  /** Category levels are unique, as in a pandas categorical. */
  predicate Distinct(levels: seq<string>) {
    forall a, b :: 0 <= a < b < |levels| ==> levels[a] != levels[b]
  }

  /** The design-matrix prefix of the grouping column, `f"C({group_col})"`. */
  function GroupPrefix(groupCol: string): string {
    "C(" + groupCol + ")"
  }

  /** The vector with a single 1 at the intercept. */
  function InterceptVec(names: seq<string>): (c: seq<real>)
    requires Intercept in names
    ensures |c| == |names|
  {
    seq(|names|, k requires 0 <= k < |names| => if k == IndexOf(names, Intercept) then 1.0 else 0.0)
  }

  /** `L[lev]`: the baseline (first) level gets the intercept alone, every later level
      the intercept plus its own dummy when the model has one. */
  function LevelVec(names: seq<string>, groupCol: string, levels: seq<string>, i: nat): (c: seq<real>)
    requires Intercept in names && i < |levels|
    ensures |c| == |names|
  {
    if i == 0 then InterceptVec(names) else CVec(names, GroupPrefix(groupCol), levels[i])
  }

  /** `means[lev]`: the intercept, plus the level's dummy coefficient after the baseline
      (`fe.get(name, 0.0)`, so a missing dummy adds nothing). */
  function LevelMean(fe: FixedEffects, groupCol: string, levels: seq<string>, i: nat): real
    requires fe.WellFormed() && Intercept in fe.names && i < |levels|
  {
    if i == 0 then InterceptCoef(fe)
    else InterceptCoef(fe) + DummyCoef(fe, GroupPrefix(groupCol), levels[i])
  }

  /** Each level's vector applied to the estimates gives that level's mean. */
  lemma LevelVecMean(fe: FixedEffects, groupCol: string, levels: seq<string>, i: nat)
    requires fe.WellFormed() && Intercept in fe.names && i < |levels|
    ensures Dot(LevelVec(fe.names, groupCol, levels, i), fe.beta) == LevelMean(fe, groupCol, levels, i)
  {
    if i == 0 {
      var c := InterceptVec(fe.names);
      DotSparse(c, fe.beta, IndexOf(fe.names, Intercept), |c|);
    } else {
      DotCVec(fe, GroupPrefix(groupCol), levels[i]);
    }
  }

  /** The two dictionaries `_predicted_means_and_cov` fills. */
  datatype Predicted = Predicted(means: map<string, real>, vecs: map<string, seq<real>>)

  /** The keys the loop has written after i levels. */
  function SeenLevels(levels: seq<string>, i: nat): set<string>
    requires i <= |levels|
  {
    set t | 0 <= t < i :: levels[t]
  }

  /** What the dictionaries hold for the first i levels. */
  ghost predicate FilledUpTo(pd: Predicted, fe: FixedEffects, groupCol: string, levels: seq<string>, i: nat)
    requires fe.WellFormed() && Intercept in fe.names && i <= |levels|
  {
    && pd.means.Keys == SeenLevels(levels, i)
    && pd.vecs.Keys == SeenLevels(levels, i)
    && forall t :: 0 <= t < i ==>
      && pd.means[levels[t]] == LevelMean(fe, groupCol, levels, t)
      && pd.vecs[levels[t]] == LevelVec(fe.names, groupCol, levels, t)
  }

  /** Writing level i's mean and vector extends what the dictionaries hold by one
      level; the earlier entries stay, as the levels are distinct. */
  lemma FilledStep(pd: Predicted, fe: FixedEffects, groupCol: string, levels: seq<string>, i: nat)
    requires fe.WellFormed() && Intercept in fe.names && i < |levels| && Distinct(levels)
    requires FilledUpTo(pd, fe, groupCol, levels, i)
    ensures FilledUpTo(Predicted(pd.means[levels[i] := LevelMean(fe, groupCol, levels, i)],
                                 pd.vecs[levels[i] := LevelVec(fe.names, groupCol, levels, i)]),
                       fe, groupCol, levels, i + 1)
  {
    assert SeenLevels(levels, i + 1) == SeenLevels(levels, i) + {levels[i]};
  }

  /** `_predicted_means_and_cov`: `fe["Intercept"]` raises as soon as there is a level
      and no intercept; otherwise every level gets its mean and its vector. */
  method PredictedMeans(fe: FixedEffects, groupCol: string, levels: seq<string>)
    returns (r: Result<Predicted, ContrastError>)
    requires fe.WellFormed() && Distinct(levels)
    ensures r.Err? <==> |levels| > 0 && Intercept !in fe.names
    ensures r.Ok? && |levels| == 0 ==> r.value == Predicted(map[], map[])
    ensures r.Ok? && Intercept in fe.names ==> FilledUpTo(r.value, fe, groupCol, levels, |levels|)
  {
    var means: map<string, real> := map[];
    var vecs: map<string, seq<real>> := map[];
    if |levels| > 0 && Intercept !in fe.names {
      return Err(NoIntercept);
    }
    var i := 0;
    while i < |levels|
      invariant 0 <= i <= |levels|
      invariant |levels| == 0 ==> means == map[] && vecs == map[]
      invariant Intercept in fe.names ==> FilledUpTo(Predicted(means, vecs), fe, groupCol, levels, i)
    {
      var lev := levels[i];
      var m: real;
      var c: seq<real>;
      if i == 0 {
        m := InterceptCoef(fe);
        c := InterceptVec(fe.names);
      } else {
        var name := DummyName(GroupPrefix(groupCol), lev);
        var beta := if name in fe.names then fe.beta[IndexOf(fe.names, name)] else 0.0;
        m := InterceptCoef(fe) + beta;
        var cr := CvecForLevel(fe.names, GroupPrefix(groupCol), lev);
        c := cr.value;
      }
      if Intercept in fe.names {
        assert m == LevelMean(fe, groupCol, levels, i) && c == LevelVec(fe.names, groupCol, levels, i);
        FilledStep(Predicted(means, vecs), fe, groupCol, levels, i);
      }
      means := means[lev := m];
      vecs := vecs[lev := c];
      i := i + 1;
    }
    return Ok(Predicted(means, vecs));
  }

  /** The `p_adj` column: the `p` column itself when no adjustment is asked for or the
      table is empty, Bonferroni when asked for by name, Benjamini-Hochberg otherwise. */
  function AdjustP(cmps: seq<Comparison>, pAdjust: Option<string>, num: Numerics): (r: seq<PairRow>)
    requires Sound(num)
    ensures |r| == |cmps|
    ensures forall t :: 0 <= t < |r| ==> r[t].cmp == cmps[t]
  {
    var ps := seq(|cmps|, t requires 0 <= t < |cmps| => cmps[t].p);
    if pAdjust.None? || |cmps| == 0 then
      seq(|cmps|, t requires 0 <= t < |cmps| => PairRow(cmps[t], cmps[t].p))
    else if pAdjust.value == "bonferroni" then
      BonferroniColumn(cmps)
    else
      var adj := num.fdrBh(ps);
      seq(|cmps|, t requires 0 <= t < |cmps| => PairRow(cmps[t], adj[t]))
  }

  /** The unadjusted row for levels i < j: the contrast `L[g2] - L[g1]` tested without
      the finiteness guard on z. */
  function GroupCompareAt(fe: FixedEffects, groupCol: string, levels: seq<string>, num: Numerics, pr: (nat, nat))
    : Comparison
    requires fe.WellFormed() && Intercept in fe.names && Sound(num)
    requires pr.0 < |levels| && pr.1 < |levels|
  {
    var c := VecSub(LevelVec(fe.names, groupCol, levels, pr.1), LevelVec(fe.names, groupCol, levels, pr.0));
    ContrastTest(c, fe, num, levels[pr.0], levels[pr.1], false)
  }

  function GroupCompareAll(fe: FixedEffects, groupCol: string, levels: seq<string>, num: Numerics,
                           prs: seq<(nat, nat)>): (r: seq<Comparison>)
    requires fe.WellFormed() && Intercept in fe.names && Sound(num) && InRange(prs, |levels|)
    ensures |r| == |prs|
  {
    seq(|prs|, t requires 0 <= t < |prs| => GroupCompareAt(fe, groupCol, levels, num, prs[t]))
  }

  lemma GroupCompareAllAppend(fe: FixedEffects, groupCol: string, levels: seq<string>, num: Numerics,
                              a: seq<(nat, nat)>, b: seq<(nat, nat)>)
    requires fe.WellFormed() && Intercept in fe.names && Sound(num)
    requires InRange(a, |levels|) && InRange(b, |levels|)
    ensures InRange(a + b, |levels|)
    ensures GroupCompareAll(fe, groupCol, levels, num, a + b)
         == GroupCompareAll(fe, groupCol, levels, num, a) + GroupCompareAll(fe, groupCol, levels, num, b)
  {
    assert InRange(a + b, |levels|);
  }

  /** The table `mixedlm_pairwise_contrasts` returns for a fitted model, or its error. */
  function PairwiseContrastsSpec(fe: FixedEffects, groupCol: string, levels: seq<string>, num: Numerics,
                                 pAdjust: Option<string>): Result<seq<PairRow>, ContrastError>
    requires fe.WellFormed() && Sound(num)
  {
    if |levels| == 0 then Ok([])
    else if Intercept !in fe.names then Err(NoIntercept)
    else Ok(AdjustP(GroupCompareAll(fe, groupCol, levels, num, Pairs(|levels|)), pAdjust, num))
  }

  /** `_contrast_test` on `L[levels[j]] - L[levels[i]]`, looked up in the dictionaries. */
  method GroupCompareRow(fe: FixedEffects, groupCol: string, levels: seq<string>, num: Numerics,
                         pd: Predicted, i: nat) returns (rows: seq<Comparison>)
    requires fe.WellFormed() && Intercept in fe.names && Sound(num) && i < |levels|
    requires FilledUpTo(pd, fe, groupCol, levels, |levels|)
    ensures InRange(Row(i, i + 1, |levels|), |levels|)
    ensures rows == GroupCompareAll(fe, groupCol, levels, num, Row(i, i + 1, |levels|))
  {
    var k := |levels|;
    rows := [];
    var j := i + 1;
    while j < k
      invariant i + 1 <= j <= k
      invariant rows == GroupCompareAll(fe, groupCol, levels, num, Row(i, i + 1, j))
    {
      var g1, g2 := levels[i], levels[j];
      var c := VecSub(pd.vecs[g2], pd.vecs[g1]);
      var est := Dot(c, fe.beta);
      var se := Sqrt(num, QuadForm(c, fe.cov));
      var z := if se.Finite? && se.v > 0.0 then Finite(est / se.v) else NaN;
      var p := TwoSidedP(num, z);
      assert Row(i, i + 1, j + 1) == Row(i, i + 1, j) + [(i, j)];
      GroupCompareAllAppend(fe, groupCol, levels, num, Row(i, i + 1, j), [(i, j)]);
      rows := rows + [Comparison(g1, g2, est, se, z, p)];
      j := j + 1;
    }
  }

  /** Fills the `p_adj` column by the rule `AdjustP` states. */
  method AdjustColumnBy(cmps: seq<Comparison>, pAdjust: Option<string>, num: Numerics)
    returns (out: seq<PairRow>)
    requires Sound(num)
    ensures out == AdjustP(cmps, pAdjust, num)
  {
    if pAdjust.Some? && |cmps| > 0 && pAdjust.value == "bonferroni" {
      out := AdjustColumn(cmps);
      return;
    }
    var ps: seq<Float> := [];
    var t := 0;
    while t < |cmps|
      invariant 0 <= t <= |cmps| && |ps| == t
      invariant forall u :: 0 <= u < t ==> ps[u] == cmps[u].p
    {
      ps := ps + [cmps[t].p];
      t := t + 1;
    }
    assert ps == seq(|cmps|, u requires 0 <= u < |cmps| => cmps[u].p);
    var adj := if pAdjust.None? || |cmps| == 0 then ps else num.fdrBh(ps);
    out := [];
    t := 0;
    while t < |cmps|
      invariant 0 <= t <= |cmps| && |out| == t
      invariant forall u :: 0 <= u < t ==> out[u] == PairRow(cmps[u], adj[u])
    {
      out := out + [PairRow(cmps[t], adj[t])];
      t := t + 1;
    }
  }

  /** The nested loops of `mixedlm_pairwise_contrasts`: one row per pair i < j, in
      the order the pairs are visited. */
  method GroupCompareAllRows(fe: FixedEffects, groupCol: string, levels: seq<string>, num: Numerics,
                             pd: Predicted) returns (pairs: seq<Comparison>)
    requires fe.WellFormed() && Intercept in fe.names && Sound(num)
    requires FilledUpTo(pd, fe, groupCol, levels, |levels|)
    ensures InRange(Pairs(|levels|), |levels|)
    ensures pairs == GroupCompareAll(fe, groupCol, levels, num, Pairs(|levels|))
  {
    var k := |levels|;
    pairs := [];
    ghost var done: seq<(nat, nat)> := [];
    var i := 0;
    while i < k
      invariant 0 <= i <= k
      invariant done + PairsFrom(i, k) == Pairs(k)
      invariant InRange(done, k)
      invariant pairs == GroupCompareAll(fe, groupCol, levels, num, done)
    {
      PairsFromStep(i, k);
      var row := GroupCompareRow(fe, groupCol, levels, num, pd, i);
      GroupCompareAllAppend(fe, groupCol, levels, num, done, Row(i, i + 1, k));
      pairs := pairs + row;
      done := done + Row(i, i + 1, k);
      i := i + 1;
    }
    assert done == Pairs(k);
  }

  /** `mixedlm_pairwise_contrasts` after the fit: predicted means and vectors, one row
      per pair i < j in category order, then the `p_adj` column. */
  method MixedlmPairwiseContrasts(fe: FixedEffects, groupCol: string, levels: seq<string>, num: Numerics,
                                  pAdjust: Option<string>) returns (r: Result<seq<PairRow>, ContrastError>)
    requires fe.WellFormed() && Sound(num) && Distinct(levels)
    ensures r == PairwiseContrastsSpec(fe, groupCol, levels, num, pAdjust)
  {
    var pr := PredictedMeans(fe, groupCol, levels);
    if pr.Err? {
      return Err(NoIntercept);
    }
    if |levels| == 0 {
      var out := AdjustColumnBy([], pAdjust, num);
      return Ok(out);
    }
    var pairs := GroupCompareAllRows(fe, groupCol, levels, num, pr.value);
    var out := AdjustColumnBy(pairs, pAdjust, num);
    return Ok(out);
  }

  /** The estimate of the pair (i, j) is the difference of the two predicted means. */
  lemma GroupEstimate(fe: FixedEffects, groupCol: string, levels: seq<string>, num: Numerics, pr: (nat, nat))
    requires fe.WellFormed() && Intercept in fe.names && Sound(num)
    requires pr.0 < |levels| && pr.1 < |levels|
    ensures GroupCompareAt(fe, groupCol, levels, num, pr).estimate
         == LevelMean(fe, groupCol, levels, pr.1) - LevelMean(fe, groupCol, levels, pr.0)
  {
    DotSub(LevelVec(fe.names, groupCol, levels, pr.1), LevelVec(fe.names, groupCol, levels, pr.0), fe.beta);
    LevelVecMean(fe, groupCol, levels, pr.0);
    LevelVecMean(fe, groupCol, levels, pr.1);
  }

  /** With an intercept the table has k(k-1)/2 rows, one per pair i < j in category
      order, each estimating mean(levels[j]) - mean(levels[i]); p_adj is p itself
      when no adjustment is asked for, and the Bonferroni value otherwise by name. */
  lemma PairwiseContrastsTable(fe: FixedEffects, groupCol: string, levels: seq<string>, num: Numerics,
                               pAdjust: Option<string>)
    requires fe.WellFormed() && Sound(num) && Intercept in fe.names
    ensures PairwiseContrastsSpec(fe, groupCol, levels, num, pAdjust).Ok?
    ensures var rows := PairwiseContrastsSpec(fe, groupCol, levels, num, pAdjust).value;
      && |rows| == |levels| * (|levels| - 1) / 2
      && forall t :: 0 <= t < |rows| ==>
        var pr := Pairs(|levels|)[t];
        && pr.0 < pr.1 < |levels|
        && rows[t].cmp.group1 == levels[pr.0] && rows[t].cmp.group2 == levels[pr.1]
        && rows[t].cmp.estimate == LevelMean(fe, groupCol, levels, pr.1) - LevelMean(fe, groupCol, levels, pr.0)
        && (pAdjust.None? ==> rows[t].pAdj == rows[t].cmp.p)
        && (pAdjust == Some("bonferroni") ==> rows[t].pAdj == Bonferroni(rows[t].cmp.p, |rows|))
  {
    PairsCount(|levels|);
    var ps := Pairs(|levels|);
    forall t | 0 <= t < |ps| {
      GroupEstimate(fe, groupCol, levels, num, ps[t]);
    }
  }
}
