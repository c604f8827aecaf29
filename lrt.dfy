/** The likelihood-ratio test between two nested fitted models (`drop1_lrt`) and the
    effect sizes derived from its statistic (`lr_effect_sizes`). */
module Lrt {
  import opened Wrappers
  import opened Floats

  /** The attributes the test reads from a fitted model; either may be missing. */
  datatype Fit = Fit(llf: Option<Float>, dfModelwc: Option<Float>)

  /** `int(x)` on a float: NaN and the infinities raise, anything else truncates
      toward zero. */
  datatype IntError = NotANumber | Overflow

  function TruncToInt(x: Float): (r: Result<int, IntError>)
    ensures x.NaN? <==> r == Err(NotANumber)
    ensures (x.PosInf? || x.NegInf?) <==> r == Err(Overflow)
    ensures r.Ok? ==> x.Finite? && (r.value as real) <= x.v + 1.0 && x.v - 1.0 <= (r.value as real)
    ensures r.Ok? && x.v >= 0.0 ==> 0 <= r.value && (r.value as real) <= x.v < (r.value as real) + 1.0
    ensures r.Ok? && x.v < 0.0 ==> r.value <= 0 && (r.value as real) - 1.0 < x.v <= (r.value as real)
  {
    match x
    case NaN => Err(NotANumber)
    case PosInf => Err(Overflow)
    case NegInf => Err(Overflow)
    case Finite(v) => Ok(if v >= 0.0 then v.Floor else -((-v).Floor))
  }

  /** `float(getattr(res, "llf", np.nan))`. */
  function LogLik(f: Fit): Float {
    if f.llf.Some? then f.llf.value else NaN
  }

  /** `int(getattr(res, "df_modelwc", np.nan))`. */
  function ModelDf(f: Fit): Result<int, IntError> {
    TruncToInt(if f.dfModelwc.Some? then f.dfModelwc.value else NaN)
  }

  /** The dictionary `drop1_lrt` returns. */
  datatype LrtReport = LrtReport(
    llFull: Float, llReduced: Float,
    dfFull: int, dfReduced: int, dfDiff: int,
    lr: Float, p: Float)

  /** The degrees of freedom of the chi-squared reference: df_diff when positive, else 1. */
  function TestDf(dfDiff: int): (d: int)
    ensures d >= 1
    ensures dfDiff > 0 <==> d == dfDiff
  {
    if dfDiff > 0 then dfDiff else 1
  }

  /** `1 - chi2.cdf(LR, df)`: NaN stays NaN; the CDF is 1 at +inf and 0 at -inf. */
  function UpperTail(num: Numerics, lr: Float, df: int): (p: Float)
    requires Sound(num)
    ensures p.NaN? <==> lr.NaN?
    ensures !lr.NaN? ==> p.Finite? && 0.0 <= p.v <= 1.0
  {
    match lr
    case Finite(x) => Finite(1.0 - num.chi2Cdf(x, df))
    case PosInf => Finite(0.0)
    case NegInf => Finite(1.0)
    case NaN => NaN
  }

  /** `drop1_lrt`: fails only where `int(...)` does, full model first. */
  function Drop1Lrt(full: Fit, reduced: Fit, num: Numerics): (r: Result<LrtReport, IntError>)
    requires Sound(num)
    ensures r.Err? <==> ModelDf(full).Err? || ModelDf(reduced).Err?
    ensures ModelDf(full).Err? ==> r == Err(ModelDf(full).error)
  {
    var llFull := LogLik(full);
    var llRed := LogLik(reduced);
    var dfFull := ModelDf(full);
    if dfFull.Err? then Err(dfFull.error)
    else
      var dfRed := ModelDf(reduced);
      if dfRed.Err? then Err(dfRed.error)
      else
        var dfDiff := dfFull.value - dfRed.value;
        var lr := Scale(2.0, Sub(llFull, llRed));
        Ok(LrtReport(llFull, llRed, dfFull.value, dfRed.value, dfDiff, lr, UpperTail(num, lr, TestDf(dfDiff))))
  }

  /** The report: LR is twice the log-likelihood difference (NaN when either is
      missing), df_diff is reported as is, and the p-value is the chi-squared upper
      tail at df_diff degrees of freedom, or at 1 when df_diff <= 0. */
  lemma Drop1LrtReport(full: Fit, reduced: Fit, num: Numerics)
    requires Sound(num) && Drop1Lrt(full, reduced, num).Ok?
    ensures var rep := Drop1Lrt(full, reduced, num).value;
      && rep.dfDiff == rep.dfFull - rep.dfReduced
      && (full.llf.None? || reduced.llf.None? ==> rep.lr.NaN? && rep.p.NaN?)
      && (rep.llFull.Finite? && rep.llReduced.Finite? ==>
            rep.lr == Finite(2.0 * (rep.llFull.v - rep.llReduced.v))
            && rep.p.Finite? && 0.0 <= rep.p.v <= 1.0
            && (rep.dfDiff > 0 ==> rep.p.v == 1.0 - num.chi2Cdf(rep.lr.v, rep.dfDiff))
            && (rep.dfDiff <= 0 ==> rep.p.v == 1.0 - num.chi2Cdf(rep.lr.v, 1)))
  {
  }

  /** `lr_effect_sizes`: both values NaN unless LR and n are finite and positive;
      otherwise R2 = 1 - exp(-LR/n), and f2 = R2 / (1 - R2) when R2 < 1, else NaN. */
  function LrEffectSizes(num: Numerics, lr: Float, nObs: Float): (r: (Float, Float))
    ensures !(lr.Finite? && lr.v > 0.0 && nObs.Finite? && nObs.v > 0.0) <==> r == (NaN, NaN)
  {
    if !(lr.Finite? && lr.v > 0.0 && nObs.Finite? && nObs.v > 0.0) then (NaN, NaN)
    else
      var r2 := 1.0 - num.exp(-lr.v / nObs.v);
      (Finite(r2), if r2 < 1.0 then Finite(r2 / (1.0 - r2)) else NaN)
  }

  /** In the computed case f2 is R2 / (1 - R2), defined exactly when R2 < 1: so
      f2 * (1 - R2) == R2, and f2 is NaN exactly when R2 >= 1. */
  lemma EffectSizeOdds(num: Numerics, lr: Float, nObs: Float)
    requires lr.Finite? && lr.v > 0.0 && nObs.Finite? && nObs.v > 0.0
    ensures var (r2, f2) := LrEffectSizes(num, lr, nObs);
      && r2 == Finite(1.0 - num.exp(-lr.v / nObs.v))
      && (f2.NaN? <==> r2.v >= 1.0)
      && (f2.Finite? ==> f2.v * (1.0 - r2.v) == r2.v)
  {
  }

  /** When exp(-LR/n) lies in (0, 1], as it does for a positive ratio without
      underflow, R2 lies in [0, 1) and f2 is finite and non-negative. */
  lemma EffectSizeBounds(num: Numerics, lr: Float, nObs: Float)
    requires lr.Finite? && lr.v > 0.0 && nObs.Finite? && nObs.v > 0.0
    requires 0.0 < num.exp(-lr.v / nObs.v) <= 1.0
    ensures var (r2, f2) := LrEffectSizes(num, lr, nObs);
      && r2.Finite? && 0.0 <= r2.v < 1.0
      && f2.Finite? && f2.v >= 0.0
  {
    var r2 := 1.0 - num.exp(-lr.v / nObs.v);
    assert 0.0 <= r2 < 1.0;
    var q := r2 / (1.0 - r2);
    assert q * (1.0 - r2) == r2;
    if q < 0.0 {
      assert q * (1.0 - r2) < 0.0;
    }
  }
}
