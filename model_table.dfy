/** The tables `export_model_table` assembles from a fitted model before it writes
    them to a document: the title, one row per fixed-effect term, and the variance
    components with the goodness-of-fit cell. The fitted model is a record whose
    optional fields are the attributes the code probes with `getattr`/`hasattr`. */
module ModelTable {
  import opened Wrappers
  import opened Floats
  import opened PValues
  import opened TermNames

  /** A float series indexed by term name. */
  type Series = map<string, Float>

  /** `s.get(t) if s is not None and t in s.index else np.nan`. */
  function Lookup(s: Option<Series>, t: string): (r: Float)
    ensures (s.None? || t !in s.value) ==> r.NaN?
    ensures s.Some? && t in s.value ==> r == s.value[t]
  {
    if s.Some? && t in s.value then s.value[t] else NaN
  }

  /** The fixed-effect estimates `res.params`: term names and values, in order. */
  datatype Params = Params(terms: seq<string>, beta: seq<real>)
  {
    predicate WellFormed() { |terms| == |beta| }
  }

  /** The attributes of `res.model` the code reads. */
  datatype ModelInfo = ModelInfo(
    formula: Option<string>,
    endogName: Option<string>,
    exogNames: Option<seq<string>>,
    exogReNames: Option<seq<string>>)

  /** A fitted result. `confInt` is `None` when `conf_int()` is missing or raises;
      `covReDiag` is the diagonal of `cov_re`. */
  datatype Fitted = Fitted(
    params: Option<Params>,
    bse: Option<Series>, bseFe: Option<Series>,
    tvalues: Option<Series>, zvalues: Option<Series>, pvalues: Option<Series>,
    confInt: Option<map<string, (Float, Float)>>,
    model: Option<ModelInfo>,
    covReDiag: Option<seq<real>>,
    scale: Option<Float>, mseResid: Option<Float>,
    llf: Option<Float>)
  {
    predicate WellFormed() { params.Some? ==> params.value.WellFormed() }
  }

  /** Why the export stops: no `.params`, an attribute missing on an intermediate
      array, or `math.sqrt` of a negative residual variance. */
  datatype TableError = NoParams | AttributeError | MathDomainError

  // ---------------------------------------------------------------- title

  /** `sep.join(parts)`. */
  function Join(parts: seq<string>, sep: string): string {
    if |parts| == 0 then "" else if |parts| == 1 then parts[0] else parts[0] + sep + Join(parts[1..], sep)
  }

  /** The predictor names without the intercept aliases. */
  function Predictors(xs: seq<string>): (r: seq<string>)
    ensures forall t :: 0 <= t < |r| ==> r[t] in xs && r[t] != "Intercept" && r[t] != "const"
    ensures forall x :: x in xs && x != "Intercept" && x != "const" ==> x in r
  {
    if |xs| == 0 then []
    else (if xs[0] != "Intercept" && xs[0] != "const" then [xs[0]] else []) + Predictors(xs[1..])
  }

  /** `get_title`: the formula when there is one; otherwise "y ~ a + b" from the
      response and the non-intercept predictors, just the response when that
      right-hand side is empty, and "Model" when the result has no model. */
  function Title(model: Option<ModelInfo>): string {
    if model.None? then "Model"
    else
      var m := model.value;
      if m.formula.Some? then m.formula.value
      else
        var y := if m.endogName.Some? then m.endogName.value else "y";
        var rhs := Join(Predictors(if m.exogNames.Some? then m.exogNames.value else []), " + ");
        if rhs != "" then y + " ~ " + rhs else y
  }

  /** A join with a non-empty separator is empty exactly when there is nothing to
      join, or one empty part. */
  lemma {:induction false} JoinEmpty(parts: seq<string>, sep: string)
    requires |sep| > 0
    ensures Join(parts, sep) == "" <==> |parts| == 0 || (|parts| == 1 && parts[0] == "")
  {
    if |parts| >= 2 {
      assert |Join(parts, sep)| >= |sep|;
    }
  }

  /** The title's three shapes. */
  lemma TitleCases(m: ModelInfo)
    requires m.formula.None?
    ensures var y := if m.endogName.Some? then m.endogName.value else "y";
      var ps := Predictors(if m.exogNames.Some? then m.exogNames.value else []);
      && (|ps| == 0 || ps == [""] ==> Title(Some(m)) == y)
      && (!(|ps| == 0 || ps == [""]) ==> Title(Some(m)) == y + " ~ " + Join(ps, " + "))
  {
    JoinEmpty(Predictors(if m.exogNames.Some? then m.exogNames.value else []), " + ");
  }

  /** A model fitted from a formula is titled by it; an intercept-only model without
      one by its response. */
  lemma TitleExamples(y: string, f: string)
    ensures Title(Some(ModelInfo(Some(f), None, None, None))) == f
    ensures Title(Some(ModelInfo(None, Some(y), Some(["Intercept"]), None))) == y
    ensures Title(Some(ModelInfo(None, Some(y), Some(["const", "x"]), None))) == y + " ~ x"
    ensures Title(None) == "Model"
  {
    assert Predictors(["Intercept"]) == [];
    assert Predictors(["const", "x"]) == ["x"] by {
      assert ["const", "x"][1..] == ["x"];
    }
  }

  // ---------------------------------------------------------------- fixed effects

  /** The standard errors: `bse`, else `bse_fe`. */
  function SeSeries(res: Fitted): Option<Series> {
    if res.bse.Some? then res.bse else res.bseFe
  }

  /** Whether a t/z column exists: `tvalues`, `zvalues`, or `params / seS`. */
  predicate HasStat(res: Fitted) {
    res.tvalues.Some? || res.zvalues.Some? || SeSeries(res).Some?
  }

  function SeAt(res: Fitted, i: nat): Float
    requires res.WellFormed() && res.params.Some? && i < |res.params.value.terms|
  {
    Lookup(SeSeries(res), res.params.value.terms[i])
  }

  /** The statistic of term i: `tvalues`, else `zvalues`, else beta / SE, else NaN. */
  function StatAt(res: Fitted, i: nat): (r: Float)
    requires res.WellFormed() && res.params.Some? && i < |res.params.value.terms|
    ensures !HasStat(res) ==> r.NaN?
  {
    var t := res.params.value.terms[i];
    if res.tvalues.Some? then Lookup(res.tvalues, t)
    else if res.zvalues.Some? then Lookup(res.zvalues, t)
    else if SeSeries(res).Some? then DivBy(res.params.value.beta[i], SeAt(res, i))
    else NaN
  }

  /** The p-value of term i: `pvalues`, else the two-sided normal p of the statistic. */
  function PAt(res: Fitted, num: Numerics, i: nat): Float
    requires Sound(num) && res.WellFormed() && res.params.Some? && i < |res.params.value.terms|
  {
    if res.pvalues.Some? then Lookup(res.pvalues, res.params.value.terms[i])
    else TwoSidedP(num, StatAt(res, i))
  }

  /** `beta -/+ 1.96 * SE`. */
  function WaldInterval(beta: real, se: Float): (Float, Float) {
    (Sub(Finite(beta), Scale(1.96, se)), Add(Finite(beta), Scale(1.96, se)))
  }

  /** The interval of term i: `conf_int()` when it works, else `beta -/+ 1.96 SE` when
      there are standard errors, else no CI column at all (`None`). */
  function CiAt(res: Fitted, i: nat): Option<(Float, Float)>
    requires res.WellFormed() && res.params.Some? && i < |res.params.value.terms|
  {
    var t := res.params.value.terms[i];
    if res.confInt.Some? then Some(if t in res.confInt.value then res.confInt.value[t] else (NaN, NaN))
    else if SeSeries(res).None? then None
    else Some(WaldInterval(res.params.value.beta[i], SeAt(res, i)))
  }

  /** One row of the fixed-effects table (estimates and intervals before rounding). */
  datatype FixedRow = FixedRow(
    variable: string, beta: real, se: Float, ci: Option<(Float, Float)>,
    stat: Float, pValue: PFormat, stars: string)

  function FixedRowAt(res: Fitted, num: Numerics, i: nat): FixedRow
    requires Sound(num) && res.WellFormed() && res.params.Some? && i < |res.params.value.terms|
  {
    var p := PAt(res, num, i);
    FixedRow(Prettify(res.params.value.terms[i]), res.params.value.beta[i], SeAt(res, i), CiAt(res, i),
             StatAt(res, i), PFmt(p), PStars(p))
  }

  /** The fixed-effects table, one row per term in order. */
  function FixedTable(res: Fitted, num: Numerics): (r: seq<FixedRow>)
    requires Sound(num) && res.WellFormed() && res.params.Some?
    ensures |r| == |res.params.value.terms|
  {
    seq(|res.params.value.terms|, i requires 0 <= i < |res.params.value.terms| => FixedRowAt(res, num, i))
  }

  /** The fallbacks of one row: SE from `bse`, else `bse_fe`; with neither t nor z
      values the statistic is beta / SE (so stat * SE == beta for a finite non-zero
      SE); the p-value falls back to the normal p of the statistic; and without
      `conf_int()` the interval is beta -/+ 1.96 SE, which contains beta whenever
      SE >= 0. */
  lemma FixedRowFallbacks(res: Fitted, num: Numerics, i: nat)
    requires Sound(num) && res.WellFormed() && res.params.Some? && i < |res.params.value.terms|
    ensures var row := FixedTable(res, num)[i];
      var t := res.params.value.terms[i];
      var beta := res.params.value.beta[i];
      && row.variable == Prettify(t)
      && (res.bse.Some? ==> row.se == Lookup(res.bse, t))
      && (res.bse.None? ==> row.se == Lookup(res.bseFe, t))
      && (res.tvalues.None? && res.zvalues.None? && row.se.Finite? && row.se.v != 0.0 ==>
            row.stat.Finite? && row.stat.v * row.se.v == beta)
      && (res.pvalues.None? ==> row.pValue == PFmt(TwoSidedP(num, row.stat)))
      && (res.confInt.None? && SeSeries(res).Some? && row.se.Finite? && row.se.v >= 0.0 ==>
            row.ci.Some? && row.ci.value.0.Finite? && row.ci.value.1.Finite?
            && row.ci.value.0.v <= beta <= row.ci.value.1.v
            && beta - row.ci.value.0.v == row.ci.value.1.v - beta == 1.96 * row.se.v)
      && (res.confInt.None? && SeSeries(res).None? ==> row.ci.None?)
  {
    var row := FixedTable(res, num)[i];
    assert row == FixedRowAt(res, num, i);
    StatFallback(res, i);
    CiFallback(res, i);
  }

  /** The interval when `conf_int()` is missing. */
  lemma CiFallback(res: Fitted, i: nat)
    requires res.WellFormed() && res.params.Some? && i < |res.params.value.terms|
    ensures var se := SeAt(res, i);
      var ci := CiAt(res, i);
      var beta := res.params.value.beta[i];
      && (res.confInt.None? && SeSeries(res).Some? && se.Finite? && se.v >= 0.0 ==>
            ci.Some? && ci.value.0.Finite? && ci.value.1.Finite?
            && ci.value.0.v <= beta <= ci.value.1.v
            && beta - ci.value.0.v == ci.value.1.v - beta == 1.96 * se.v)
      && (res.confInt.None? && SeSeries(res).None? ==> ci.None?)
  {
    var se := SeAt(res, i);
    if res.confInt.None? && SeSeries(res).Some? && se.Finite? && se.v >= 0.0 {
      WaldIntervalAround(res.params.value.beta[i], se);
    }
  }

  /** The computed statistic times the SE gives back the estimate. */
  lemma StatFallback(res: Fitted, i: nat)
    requires res.WellFormed() && res.params.Some? && i < |res.params.value.terms|
    ensures var se := SeAt(res, i);
      res.tvalues.None? && res.zvalues.None? && se.Finite? && se.v != 0.0 ==>
        StatAt(res, i).Finite? && StatAt(res, i).v * se.v == res.params.value.beta[i]
  {
    var se := SeAt(res, i);
    if res.tvalues.None? && res.zvalues.None? && se.Finite? && se.v != 0.0 {
      assert StatAt(res, i) == Finite(res.params.value.beta[i] / se.v);
      DivTimes(res.params.value.beta[i], se.v);
    }
  }

  lemma DivTimes(a: real, b: real)
    requires b != 0.0
    ensures (a / b) * b == a
  {
  }

  /** With a finite non-negative SE, `beta -/+ 1.96 * SE` is finite and centred on
      beta. */
  lemma WaldIntervalAround(beta: real, se: Float)
    requires se.Finite? && se.v >= 0.0
    ensures var ci := WaldInterval(beta, se);
      && ci.0.Finite? && ci.1.Finite?
      && ci.0.v <= beta <= ci.1.v
      && beta - ci.0.v == ci.1.v - beta == 1.96 * se.v
  {
  }

  /** When the p-values come from the fallback, the p-value column is blank exactly
      when the statistic is NaN. */
  lemma FallbackPBlank(res: Fitted, num: Numerics, i: nat)
    requires Sound(num) && res.WellFormed() && res.params.Some? && i < |res.params.value.terms|
    requires res.pvalues.None?
    ensures FixedTable(res, num)[i].pValue.Blank? <==> FixedTable(res, num)[i].stat.NaN?
  {
  }

  /** The fixed-effects table as the code is written. Two things make it raise
      AttributeError. A one-term `params` Series is squeezed to a scalar, so the
      re-wrapped Series is indexed by 0 and `prettify_terms(0)` fails on `.replace`.
      When `pvalues` is missing but a statistic exists, the fallback p-values are a
      plain numpy array (the normal CDF returns one), and the first `i in pS.index`
      in the row loop fails; with no terms the loop never runs. */
  function FixedTableAsWritten(res: Fitted, num: Numerics): (r: Result<seq<FixedRow>, TableError>)
    requires Sound(num) && res.WellFormed() && res.params.Some?
    ensures r.Err? <==> (|res.params.value.terms| == 1
                          || (res.pvalues.None? && HasStat(res) && |res.params.value.terms| > 0))
    ensures r.Err? ==> r.error == AttributeError
    ensures r.Ok? ==> r.value == FixedTable(res, num)
  {
    if |res.params.value.terms| == 1 then Err(AttributeError)
    else if res.pvalues.None? && HasStat(res) && |res.params.value.terms| > 0 then Err(AttributeError)
    else Ok(FixedTable(res, num))
  }

  /** A two-term fit that has t-values but no p-values makes the code raise, where
      the corrected table gives each term its normal p-value. */
  lemma PFallbackRaises(num: Numerics, t: real, u: real)
    requires Sound(num)
    ensures var res := Fitted(Some(Params(["x", "z"], [1.0, 2.0])), None, None,
                              Some(map["x" := Finite(t), "z" := Finite(u)]), None, None,
                              None, None, None, None, None, None);
      && FixedTableAsWritten(res, num) == Err(AttributeError)
      && FixedTable(res, num)[0].pValue == PFmt(TwoSidedP(num, Finite(t)))
      && FixedTable(res, num)[1].pValue == PFmt(TwoSidedP(num, Finite(u)))
  {
  }

  /** A one-term fit raises as written even with every attribute present, where the
      corrected table has the one row of that term. */
  lemma SqueezeRaises(num: Numerics, b: real, p: real)
    requires Sound(num)
    ensures var res := Fitted(Some(Params(["x"], [b])), None, None, None, None, Some(map["x" := Finite(p)]),
                              None, None, None, None, None, None);
      && FixedTableAsWritten(res, num) == Err(AttributeError)
      && |FixedTable(res, num)| == 1
      && FixedTable(res, num)[0].pValue == PFmt(Finite(p))
  {
  }

  // ---------------------------------------------------------------- variance components

  /** The goodness-of-fit cell: empty, or "Log likelihood" followed by the rounded
      log-likelihood (nothing when it is NaN). */
  datatype GoodnessOfFit = NoFit | LogLik(value: Option<Float>)

  datatype VarRow = VarRow(caption: string, sd: Float, fit: GoodnessOfFit)

  /** "Intercept" and "(Intercept)" become "Random intercept". */
  function ReLabel(name: string): (r: string)
    ensures (name == "Intercept" || name == "(Intercept)") <==> r == "Random intercept" && name != r
  {
    if name == "Intercept" || name == "(Intercept)" then "Random intercept" else name
  }

  function DigitChar(d: nat): (c: char)
    requires d < 10
    ensures '0' <= c <= '9'
  {
    ('0' as int + d) as char
  }

  /** The decimal digits of n. */
  function NatToString(n: nat): (s: string)
    ensures |s| > 0 && forall k :: 0 <= k < |s| ==> '0' <= s[k] <= '9'
  {
    if n < 10 then [DigitChar(n)] else NatToString(n / 10) + [DigitChar(n % 10)]
  }

  /** `[f"RE_{i+1}" for i in range(n)]`. */
  function DefaultReNames(n: nat): (r: seq<string>)
    ensures |r| == n
  {
    seq(n, i requires 0 <= i < n => "RE_" + NatToString(i + 1))
  }

  /** The random-effect names: `res.model.exog_re_names`, else the defaults. */
  function ReNames(res: Fitted, n: nat): seq<string> {
    if res.model.Some? && res.model.value.exogReNames.Some? then res.model.value.exogReNames.value
    else DefaultReNames(n)
  }

  function Min(a: nat, b: nat): nat { if a <= b then a else b }

  /** One row per (name, sd) pair of `zip(names, sds)`. */
  function ReRows(res: Fitted, num: Numerics): (r: seq<VarRow>)
    requires Sound(num)
  {
    if res.covReDiag.None? then []
    else
      var diag := res.covReDiag.value;
      var names := ReNames(res, |diag|);
      seq(Min(|names|, |diag|), i requires 0 <= i < Min(|names|, |diag|) =>
        VarRow(ReLabel(names[i]), Sqrt(num, diag[i]), NoFit))
  }

  /** `scale`, else `mse_resid`. */
  function Scale2(res: Fitted): Option<Float> {
    if res.scale.Some? then res.scale else res.mseResid
  }

  /** The Residual row: none for a missing or NaN scale; `math.sqrt` raises for a
      negative one. */
  function ResidualRows(res: Fitted, num: Numerics): (r: Result<seq<VarRow>, TableError>)
    requires Sound(num)
    ensures r.Err? <==> Scale2(res).Some? && (Scale2(res).value.NegInf? || LessThan(Scale2(res).value, 0.0))
    ensures r.Ok? ==> |r.value| <= 1 && (|r.value| == 1 <==> Scale2(res).Some? && !Scale2(res).value.NaN?)
  {
    var s := Scale2(res);
    if s.None? || s.value.NaN? then Ok([])
    else match s.value
      case Finite(v) => if v < 0.0 then Err(MathDomainError) else Ok([VarRow("Residual", Sqrt(num, v), NoFit)])
      case PosInf => Ok([VarRow("Residual", PosInf, NoFit)])
      case NegInf => Err(MathDomainError)
  }

  /** `getattr(model_result, "llf", np.nan)`, shown only when it is not NaN. */
  function FitCell(res: Fitted): GoodnessOfFit {
    var ll := if res.llf.Some? then res.llf.value else NaN;
    LogLik(if ll.NaN? then None else Some(ll))
  }

  /** The variance-components table. */
  function VarianceSpec(res: Fitted, num: Numerics): Result<seq<VarRow>, TableError>
    requires Sound(num)
  {
    var resid := ResidualRows(res, num);
    if resid.Err? then Err(resid.error)
    else
      var rows := ReRows(res, num) + resid.value;
      var rows := if |rows| == 0 then [VarRow("Residual", NaN, NoFit)] else rows;
      Ok(rows[0 := rows[0].(fit := FitCell(res))])
  }

  /** The loop that builds `var_rows`, the replacement of an empty list, and the
      in-place write of the goodness-of-fit cell into the first row. */
  method VarianceRows(res: Fitted, num: Numerics) returns (r: Result<seq<VarRow>, TableError>)
    requires Sound(num)
    ensures r == VarianceSpec(res, num)
  {
    var rows: seq<VarRow> := [];
    if res.covReDiag.Some? {
      var sds := res.covReDiag.value;
      var names := ReNames(res, |sds|);
      var i := 0;
      while i < |names| && i < |sds|
        invariant 0 <= i <= Min(|names|, |sds|)
        invariant rows == ReRows(res, num)[..i]
      {
        rows := rows + [VarRow(ReLabel(names[i]), Sqrt(num, sds[i]), NoFit)];
        i := i + 1;
      }
      assert rows == ReRows(res, num);
    } else {
      assert rows == ReRows(res, num);
    }
    var scale := res.scale;
    if scale.None? {
      scale := res.mseResid;
    }
    if scale.Some? && !scale.value.NaN? {
      if scale.value.NegInf? || (scale.value.Finite? && scale.value.v < 0.0) {
        return Err(MathDomainError);
      }
      var sd := if scale.value.PosInf? then PosInf else Sqrt(num, scale.value.v);
      rows := rows + [VarRow("Residual", sd, NoFit)];
    }
    assert ResidualRows(res, num).Ok? && rows == ReRows(res, num) + ResidualRows(res, num).value;
    if |rows| == 0 {
      rows := [VarRow("Residual", NaN, NoFit)];
    }
    rows := rows[0 := rows[0].(fit := FitCell(res))];
    return Ok(rows);
  }

  /** The table's shape: one relabelled row per random effect (as many as both the
      names and the variances cover), then a Residual row exactly when the scale is
      present and not NaN, and a single Residual row with a missing SD when neither
      exists; only the first row carries the log-likelihood. */
  lemma VarianceShape(res: Fitted, num: Numerics)
    requires Sound(num) && VarianceSpec(res, num).Ok?
    ensures var rows := VarianceSpec(res, num).value;
      var re := ReRows(res, num);
      var hasResid := Scale2(res).Some? && !Scale2(res).value.NaN?;
      && |rows| >= 1
      && rows[0].fit == FitCell(res)
      && (forall k :: 1 <= k < |rows| ==> rows[k].fit == NoFit)
      && (res.covReDiag.Some? ==> |re| == Min(|ReNames(res, |res.covReDiag.value|)|, |res.covReDiag.value|))
      && (forall k :: 0 <= k < |re| ==>
            rows[k].caption == ReLabel(ReNames(res, |res.covReDiag.value|)[k])
            && rows[k].sd == Sqrt(num, res.covReDiag.value[k]))
      && (|re| > 0 || hasResid ==> |rows| == |re| + (if hasResid then 1 else 0))
      && (hasResid ==> rows[|rows| - 1].caption == "Residual" && !rows[|rows| - 1].sd.NaN?)
      && (|re| == 0 && !hasResid ==> |rows| == 1 && rows[0].caption == "Residual" && rows[0].sd.NaN?)
  {
  }

  // ---------------------------------------------------------------- the whole export

  datatype Tables = Tables(title: string, fixed: seq<FixedRow>, variance: seq<VarRow>)

  /** Everything `export_model_table` writes, or why it stops: no `.params`, or a
      negative residual variance. */
  function ExportTables(res: Fitted, num: Numerics): (r: Result<Tables, TableError>)
    requires Sound(num) && res.WellFormed()
    ensures res.params.None? ==> r == Err(NoParams)
    ensures r.Err? <==> res.params.None? || VarianceSpec(res, num).Err?
    ensures res.params.Some? && VarianceSpec(res, num).Err? ==> r == Err(MathDomainError)
    ensures r.Ok? ==> r.value == Tables(Title(res.model), FixedTable(res, num), VarianceSpec(res, num).value)
    ensures r.Ok? ==> |r.value.fixed| == |res.params.value.terms| && |r.value.variance| >= 1
  {
    if res.params.None? then Err(NoParams)
    else
      var v := VarianceSpec(res, num);
      if v.Err? then Err(v.error)
      else
        VarianceShape(res, num);
        Ok(Tables(Title(res.model), FixedTable(res, num), v.value))
  }
}
