/** Treatment-coded contrasts of a fitted mixed model, as in
    `pairwise_condition_contrasts_at_mean_gaze`: per-level contrast vectors
    (`cvec_for_level`), the z-test of one contrast, and the Bonferroni-adjusted
    table of all pairwise differences. */
module Contrasts {
  import opened Wrappers
  import opened Floats
  import opened LinAlg
  import opened PairOrder

  /** The fixed-effect part of a fitted model: parameter names, estimates and their
      covariance matrix, in the same order. */
  datatype FixedEffects = FixedEffects(names: seq<string>, beta: seq<real>, cov: seq<seq<real>>)
  {
    predicate WellFormed() {
      |beta| == |names| && IsSquare(cov, |names|)
    }
  }

  /** `names.index("Intercept")` raises when the model has no intercept. */
  datatype ContrastError = NoIntercept

  const Intercept: string := "Intercept"

  /** The treatment dummy's parameter name, `f"{prefix}[T.{level}]"`. */
  function DummyName(prefix: string, level: string): (r: string)
    ensures r != Intercept
  {
    var r := prefix + "[T." + level + "]";
    assert r[|r| - 1] != Intercept[|Intercept| - 1];
    r
  }

  /** The coefficient of a level's dummy, zero when the model has no such parameter. */
  function DummyCoef(fe: FixedEffects, prefix: string, level: string): real
    requires fe.WellFormed()
  {
    var d := DummyName(prefix, level);
    if d in fe.names then fe.beta[IndexOf(fe.names, d)] else 0.0
  }

  function InterceptCoef(fe: FixedEffects): real
    requires fe.WellFormed() && Intercept in fe.names
  {
    fe.beta[IndexOf(fe.names, Intercept)]
  }

  /** The contrast vector of one level: 1 at the intercept, 1 at the level's dummy
      when that parameter exists, 0 everywhere else. */
  function CVec(names: seq<string>, prefix: string, level: string): (c: seq<real>)
    requires Intercept in names
    ensures |c| == |names|
  {
    var d := DummyName(prefix, level);
    seq(|names|, k requires 0 <= k < |names| =>
      if k == IndexOf(names, Intercept) || (d in names && k == IndexOf(names, d)) then 1.0 else 0.0)
  }

  /** `cvec_for_level`: fill a zero vector in place; fails without an intercept. */
  method CvecForLevel(names: seq<string>, prefix: string, level: string)
    returns (r: Result<seq<real>, ContrastError>)
    ensures Intercept !in names ==> r == Err(NoIntercept)
    ensures Intercept in names ==> r == Ok(CVec(names, prefix, level))
  {
    if Intercept !in names {
      return Err(NoIntercept);
    }
    var c := new real[|names|](_ => 0.0);
    assert forall k :: 0 <= k < c.Length ==> c[k] == 0.0;
    c[IndexOf(names, Intercept)] := 1.0;
    var pname := DummyName(prefix, level);
    if pname in names {
      c[IndexOf(names, pname)] := 1.0;
    }
    assert c[..] == CVec(names, prefix, level);
    return Ok(c[..]);
  }

  /** A level's contrast vector applied to the estimates is that level's mean at the
      reference point: the intercept plus the level's dummy coefficient. */
  lemma DotCVec(fe: FixedEffects, prefix: string, level: string)
    requires fe.WellFormed() && Intercept in fe.names
    ensures Dot(CVec(fe.names, prefix, level), fe.beta) == InterceptCoef(fe) + DummyCoef(fe, prefix, level)
  {
    var c := CVec(fe.names, prefix, level);
    var d := DummyName(prefix, level);
    var i := IndexOf(fe.names, Intercept);
    var j := if d in fe.names then IndexOf(fe.names, d) else |c|;
    DotSparse(c, fe.beta, i, j);
  }

  /** The pairwise contrast vector `cvec(g2) - cvec(g1)`. */
  function PairVec(names: seq<string>, prefix: string, g1: string, g2: string): (c: seq<real>)
    requires Intercept in names
    ensures |c| == |names|
  {
    VecSub(CVec(names, prefix, g2), CVec(names, prefix, g1))
  }

  /** Every entry of a pairwise contrast is -1, 0 or 1, and the intercept cancels. */
  lemma PairVecShape(names: seq<string>, prefix: string, g1: string, g2: string)
    requires Intercept in names
    ensures var c := PairVec(names, prefix, g1, g2);
      && c[IndexOf(names, Intercept)] == 0.0
      && forall k :: 0 <= k < |c| ==> c[k] in {-1.0, 0.0, 1.0}
  {
  }

  /** The estimated difference is the difference of the two dummy coefficients,
      an absent dummy counting as zero. */
  lemma PairEstimate(fe: FixedEffects, prefix: string, g1: string, g2: string)
    requires fe.WellFormed() && Intercept in fe.names
    ensures Dot(PairVec(fe.names, prefix, g1, g2), fe.beta)
         == DummyCoef(fe, prefix, g2) - DummyCoef(fe, prefix, g1)
  {
    DotSub(CVec(fe.names, prefix, g2), CVec(fe.names, prefix, g1), fe.beta);
    DotCVec(fe, prefix, g1);
    DotCVec(fe, prefix, g2);
  }

  /** One row of the contrast table before adjustment. */
  datatype Comparison = Comparison(group1: string, group2: string, estimate: real, se: Float, z: Float, p: Float)

  /** One row with its adjusted p-value. */
  datatype PairRow = PairRow(cmp: Comparison, pAdj: Float)

  /** `z = est / se if se > 0 else NaN`. */
  function ZStat(est: real, se: Float): (z: Float)
    ensures z.Finite? <==> se.Finite? && se.v > 0.0
    ensures z.Finite? ==> z.v * se.v == est
    ensures !z.Finite? ==> z.NaN?
  {
    if se.Finite? && se.v > 0.0 then Finite(est / se.v) else NaN
  }

  /** The estimate, standard error, z and p of one contrast vector; `guarded` selects
      `p = ... if np.isfinite(z) else np.nan` rather than the unguarded formula. */
  function ContrastTest(c: seq<real>, fe: FixedEffects, num: Numerics, g1: string, g2: string, guarded: bool)
    : (r: Comparison)
    requires fe.WellFormed() && |c| == |fe.names| && Sound(num)
    ensures r.group1 == g1 && r.group2 == g2 && r.estimate == Dot(c, fe.beta)
    ensures r.se.NaN? <==> QuadForm(c, fe.cov) < 0.0
    ensures r.se.Finite? ==> r.se.v >= 0.0
    ensures r.z.NaN? <==> !(r.se.Finite? && r.se.v > 0.0)
    ensures r.p.NaN? <==> r.z.NaN?
    ensures r.p.Finite? ==> 0.0 <= r.p.v <= 1.0
    ensures r.se == Sqrt(num, QuadForm(c, fe.cov))
    ensures r.z.Finite? ==> r.z.v * r.se.v == r.estimate
    ensures r.z.Finite? || !guarded ==> r.p == TwoSidedP(num, r.z)
  {
    var est := Dot(c, fe.beta);
    var se := Sqrt(num, QuadForm(c, fe.cov));
    var z := ZStat(est, se);
    var p := if guarded && !z.Finite? then NaN else TwoSidedP(num, z);
    Comparison(g1, g2, est, se, z, p)
  }

  /** z is never infinite here, so the `isfinite` guard changes nothing. */
  lemma GuardIrrelevant(c: seq<real>, fe: FixedEffects, num: Numerics, g1: string, g2: string)
    requires fe.WellFormed() && |c| == |fe.names| && Sound(num)
    ensures ContrastTest(c, fe, num, g1, g2, true) == ContrastTest(c, fe, num, g1, g2, false)
  {
  }

  /** The row for one pair (i, j) of condition levels. */
  function CompareAt(fe: FixedEffects, levels: seq<string>, prefix: string, num: Numerics, pr: (nat, nat))
    : Comparison
    requires fe.WellFormed() && Intercept in fe.names && Sound(num)
    requires pr.0 < |levels| && pr.1 < |levels|
  {
    var g1, g2 := levels[pr.0], levels[pr.1];
    ContrastTest(PairVec(fe.names, prefix, g1, g2), fe, num, g1, g2, true)
  }

  /** Bonferroni: `np.minimum(p * m, 1.0)`. */
  function Bonferroni(p: Float, m: nat): (r: Float)
    requires m > 0
    ensures r.NaN? <==> p.NaN?
    ensures p.Finite? && 0.0 <= p.v <= 1.0 ==> r.Finite? && p.v <= r.v <= 1.0
  {
    if p.Finite? && 0.0 <= p.v then
      assert (m as real) * p.v >= p.v by { assert (m as real - 1.0) * p.v >= 0.0; }
      MinWith(Scale(m as real, p), 1.0)
    else
      MinWith(Scale(m as real, p), 1.0)
  }

  /** The adjusted column: every p-value multiplied by the number of rows, capped at 1. */
  function BonferroniColumn(cmps: seq<Comparison>): (r: seq<PairRow>)
    ensures |r| == |cmps|
    ensures forall t :: 0 <= t < |r| ==> r[t] == PairRow(cmps[t], Bonferroni(cmps[t].p, |cmps|))
  {
    seq(|cmps|, t requires 0 <= t < |cmps| => PairRow(cmps[t], Bonferroni(cmps[t].p, |cmps|)))
  }

  /** The table `pairwise_condition_contrasts_at_mean_gaze` returns, or its error. */
  function PairwiseSpec(fe: FixedEffects, levels: seq<string>, prefix: string, num: Numerics)
    : Result<seq<PairRow>, ContrastError>
    requires fe.WellFormed() && Sound(num)
  {
    var ps := Pairs(|levels|);
    if Intercept !in fe.names then
      if |ps| == 0 then Ok([]) else Err(NoIntercept)
    else
      Ok(BonferroniColumn(CompareAll(fe, levels, prefix, num, ps)))
  }

  predicate InRange(prs: seq<(nat, nat)>, k: nat) {
    forall t :: 0 <= t < |prs| ==> prs[t].0 < k && prs[t].1 < k
  }

  /** The unadjusted rows for a list of pairs. */
  function CompareAll(fe: FixedEffects, levels: seq<string>, prefix: string, num: Numerics, prs: seq<(nat, nat)>)
    : (r: seq<Comparison>)
    requires fe.WellFormed() && Intercept in fe.names && Sound(num) && InRange(prs, |levels|)
    ensures |r| == |prs|
  {
    seq(|prs|, t requires 0 <= t < |prs| => CompareAt(fe, levels, prefix, num, prs[t]))
  }

  lemma CompareAllAppend(fe: FixedEffects, levels: seq<string>, prefix: string, num: Numerics,
                         a: seq<(nat, nat)>, b: seq<(nat, nat)>)
    requires fe.WellFormed() && Intercept in fe.names && Sound(num)
    requires InRange(a, |levels|) && InRange(b, |levels|)
    ensures InRange(a + b, |levels|)
    ensures CompareAll(fe, levels, prefix, num, a + b)
         == CompareAll(fe, levels, prefix, num, a) + CompareAll(fe, levels, prefix, num, b)
  {
    assert InRange(a + b, |levels|);
  }

  /** The body of the inner loop: both contrast vectors, their difference and its test. */
  method CompareLevels(fe: FixedEffects, levels: seq<string>, prefix: string, num: Numerics, i: nat, j: nat)
    returns (r: Result<Comparison, ContrastError>)
    requires fe.WellFormed() && Sound(num) && i < |levels| && j < |levels|
    ensures Intercept !in fe.names ==> r == Err(NoIntercept)
    ensures Intercept in fe.names ==> r == Ok(CompareAt(fe, levels, prefix, num, (i, j)))
  {
    var g1, g2 := levels[i], levels[j];
    var c1 := CvecForLevel(fe.names, prefix, g2);
    var c0 := CvecForLevel(fe.names, prefix, g1);
    if c1.Err? || c0.Err? {
      return Err(NoIntercept);
    }
    var c := VecSub(c1.value, c0.value);
    var est := Dot(c, fe.beta);
    var se := Sqrt(num, QuadForm(c, fe.cov));
    var z := if se.Finite? && se.v > 0.0 then Finite(est / se.v) else NaN;
    var p := if z.Finite? then TwoSidedP(num, z) else NaN;
    return Ok(Comparison(g1, g2, est, se, z, p));
  }

  /** The loop filling the adjusted column. */
  method AdjustColumn(cmps: seq<Comparison>) returns (out: seq<PairRow>)
    ensures out == BonferroniColumn(cmps)
  {
    out := [];
    var t := 0;
    while t < |cmps|
      invariant 0 <= t <= |cmps|
      invariant out == BonferroniColumn(cmps)[..t]
    {
      out := out + [PairRow(cmps[t], Bonferroni(cmps[t].p, |cmps|))];
      t := t + 1;
    }
  }

  /** The inner loop `for j in range(i + 1, k)`: the rows pairing level i with
      every later level. */
  method CompareRow(fe: FixedEffects, levels: seq<string>, prefix: string, num: Numerics, i: nat)
    returns (r: Result<seq<Comparison>, ContrastError>)
    requires fe.WellFormed() && Sound(num) && i < |levels|
    ensures Intercept !in fe.names ==> r == (if i + 1 < |levels| then Err(NoIntercept) else Ok([]))
    ensures Intercept in fe.names ==> InRange(Row(i, i + 1, |levels|), |levels|)
    ensures Intercept in fe.names ==> r == Ok(CompareAll(fe, levels, prefix, num, Row(i, i + 1, |levels|)))
  {
    var k := |levels|;
    var results: seq<Comparison> := [];
    var j := i + 1;
    while j < k
      invariant i + 1 <= j <= k
      invariant Intercept !in fe.names ==> results == [] && j == i + 1
      invariant Intercept in fe.names ==> results == CompareAll(fe, levels, prefix, num, Row(i, i + 1, j))
    {
      var row := CompareLevels(fe, levels, prefix, num, i, j);
      if row.Err? {
        return Err(NoIntercept);
      }
      if Intercept in fe.names {
        assert Row(i, i + 1, j + 1) == Row(i, i + 1, j) + [(i, j)];
        CompareAllAppend(fe, levels, prefix, num, Row(i, i + 1, j), [(i, j)]);
      }
      results := results + [row.value];
      j := j + 1;
    }
    return Ok(results);
  }

  /** `pairwise_condition_contrasts_at_mean_gaze`: the nested loops append one row
      per pair i < j in level order, then the adjusted column is filled in. */
  method PairwiseAtMeanGaze(fe: FixedEffects, levels: seq<string>, prefix: string, num: Numerics)
    returns (r: Result<seq<PairRow>, ContrastError>)
    requires fe.WellFormed() && Sound(num)
    ensures r == PairwiseSpec(fe, levels, prefix, num)
  {
    var k := |levels|;
    var results: seq<Comparison> := [];
    ghost var done: seq<(nat, nat)> := [];
    var i := 0;
    while i < k
      invariant 0 <= i <= k
      invariant done + PairsFrom(i, k) == Pairs(k)
      invariant InRange(done, k)
      invariant Intercept !in fe.names ==> done == [] && results == []
      invariant Intercept in fe.names ==> results == CompareAll(fe, levels, prefix, num, done)
    {
      PairsFromStep(i, k);
      var row := CompareRow(fe, levels, prefix, num, i);
      if row.Err? {
        assert Row(i, i + 1, k)[0] == (i, i + 1);
        return Err(NoIntercept);
      }
      if Intercept in fe.names {
        CompareAllAppend(fe, levels, prefix, num, done, Row(i, i + 1, k));
      }
      assert InRange(Row(i, i + 1, k), k);
      results := results + row.value;
      done := done + Row(i, i + 1, k);
      i := i + 1;
    }
    assert done == Pairs(k);
    var out := AdjustColumn(results);
    return Ok(out);
  }

  /** With an intercept the table has one row per pair i < j, in level order, with
      Group1 = levels[i], Group2 = levels[j], the difference of the two dummy
      coefficients as estimate, and p <= p_adj <= 1 whenever p is a probability. */
  lemma PairwiseTable(fe: FixedEffects, levels: seq<string>, prefix: string, num: Numerics)
    requires fe.WellFormed() && Sound(num) && Intercept in fe.names
    ensures PairwiseSpec(fe, levels, prefix, num).Ok?
    ensures var rows := PairwiseSpec(fe, levels, prefix, num).value;
      && |rows| == |levels| * (|levels| - 1) / 2
      && forall t :: 0 <= t < |rows| ==>
        var pr := Pairs(|levels|)[t];
        && pr.0 < pr.1 < |levels|
        && rows[t].cmp.group1 == levels[pr.0] && rows[t].cmp.group2 == levels[pr.1]
        && rows[t].cmp.estimate == DummyCoef(fe, prefix, levels[pr.1]) - DummyCoef(fe, prefix, levels[pr.0])
        && (rows[t].cmp.p.Finite? ==> rows[t].pAdj.Finite? && rows[t].cmp.p.v <= rows[t].pAdj.v <= 1.0)
  {
    PairsCount(|levels|);
    var ps := Pairs(|levels|);
    forall t | 0 <= t < |ps| {
      PairEstimate(fe, prefix, levels[ps[t].0], levels[ps[t].1]);
    }
  }

  /** Without an intercept the function fails exactly when there is at least one pair. */
  lemma PairwiseNoIntercept(fe: FixedEffects, levels: seq<string>, prefix: string, num: Numerics)
    requires fe.WellFormed() && Sound(num) && Intercept !in fe.names
    ensures PairwiseSpec(fe, levels, prefix, num).Err? <==> |levels| >= 2
  {
    PairsCount(|levels|);
    if |levels| >= 2 {
      assert 2 <= |levels| * (|levels| - 1);
    }
  }
}
