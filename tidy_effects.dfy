/** `mixedlm_fixed_effects_to_df`: the fixed effects of a fitted result as a tidy
    table (term, beta, SE, statistic, p, CI), optionally annotated with the task, the
    dependent variable and a model label. It reads the same attributes as the model
    table and shares its SE, statistic and p-value fallbacks. */
module TidyEffects {
  import opened Wrappers
  import opened Floats
  import opened ModelTable

  /** One row of the tidy table. */
  datatype TidyRow = TidyRow(term: string, beta: real, se: Float, stat: Float, p: Float,
                             ciLow: Float, ciHigh: Float)

  /** The columns of the table, named as in the data frame. */
  datatype ColumnName = Task | DV | ModelLabel | Term | Beta | SE | Stat | P | CILow | CIHigh

  /** The table: its column names in order, its rows, and the constant annotation
      columns that were asked for. */
  datatype Tidy = Tidy(columns: seq<ColumnName>, rows: seq<TidyRow>,
                       task: Option<string>, dv: Option<string>, modelLabel: Option<string>)

  const BaseColumns: seq<ColumnName> := [Term, Beta, SE, Stat, P, CILow, CIHigh]

  /** `df.insert(k, name, ...)`: name becomes column number k. */
  function InsertAt(cols: seq<ColumnName>, k: nat, name: ColumnName): (r: seq<ColumnName>)
    requires k <= |cols|
    ensures |r| == |cols| + 1 && r[k] == name
  {
    cols[..k] + [name] + cols[k..]
  }

  /** An insert shifts the columns from k on by one and adds exactly one name. */
  lemma InsertAtParts(cols: seq<ColumnName>, k: nat, name: ColumnName)
    requires k <= |cols|
    ensures var r := InsertAt(cols, k, name);
      && r[..k] == cols[..k] && r[k + 1..] == cols[k..]
      && multiset(r) == multiset(cols) + multiset{name}
  {
    var r := InsertAt(cols, k, name);
    assert r[..k] == cols[..k];
    assert r[k + 1..] == cols[k..];
    calc {
      multiset(r);
      multiset(cols[..k]) + multiset{name} + multiset(cols[k..]);
      { assert cols == cols[..k] + cols[k..]; }
      multiset(cols) + multiset{name};
    }
  }

  /** The three optional inserts, at positions 0, 1 and 2, in that order. */
  function Columns(task: Option<string>, dv: Option<string>, modelLabel: Option<string>): (r: seq<ColumnName>)
    ensures |r| >= |BaseColumns|
  {
    var c0 := BaseColumns;
    var c1 := if task.Some? then InsertAt(c0, 0, Task) else c0;
    var c2 := if dv.Some? then InsertAt(c1, 1, DV) else c1;
    if modelLabel.Some? then InsertAt(c2, 2, ModelLabel) else c2
  }

  /** The interval of one term: `conf_int()` realigned to the terms, or NaN when it
      is missing or raises. */
  function TidyCi(res: Fitted, t: string): (Float, Float) {
    if res.confInt.Some? && t in res.confInt.value then res.confInt.value[t] else (NaN, NaN)
  }

  function TidyRowAt(res: Fitted, num: Numerics, i: nat): TidyRow
    requires Sound(num) && res.WellFormed() && res.params.Some? && i < |res.params.value.terms|
  {
    var t := res.params.value.terms[i];
    var ci := TidyCi(res, t);
    TidyRow(t, res.params.value.beta[i], SeAt(res, i), StatAt(res, i), PAt(res, num, i), ci.0, ci.1)
  }

  function TidyRows(res: Fitted, num: Numerics): (r: seq<TidyRow>)
    requires Sound(num) && res.WellFormed() && res.params.Some?
    ensures |r| == |res.params.value.terms|
  {
    seq(|res.params.value.terms|, i requires 0 <= i < |res.params.value.terms| => TidyRowAt(res, num, i))
  }

  /** The table with the p-value fallback working: `res.params` must exist. */
  function FixedEffectsToDf(res: Fitted, num: Numerics, task: Option<string>, dv: Option<string>,
                            modelLabel: Option<string>): (r: Result<Tidy, TableError>)
    requires Sound(num) && res.WellFormed()
    ensures r.Err? <==> res.params.None?
    ensures r.Err? ==> r.error == AttributeError
    ensures r.Ok? ==> r.value.columns == Columns(task, dv, modelLabel) && r.value.rows == TidyRows(res, num)
    ensures r.Ok? ==> r.value.task == task && r.value.dv == dv && r.value.modelLabel == modelLabel
  {
    if res.params.None? then Err(AttributeError)
    else Ok(Tidy(Columns(task, dv, modelLabel), TidyRows(res, num), task, dv, modelLabel))
  }

  /** The function as written: without `pvalues` the fallback is a plain numpy array,
      and its `.reindex` raises AttributeError, whatever the terms. */
  function FixedEffectsToDfAsWritten(res: Fitted, num: Numerics, task: Option<string>, dv: Option<string>,
                                     modelLabel: Option<string>): (r: Result<Tidy, TableError>)
    requires Sound(num) && res.WellFormed()
    ensures r.Err? <==> res.params.None? || res.pvalues.None?
    ensures r.Ok? ==> r == FixedEffectsToDf(res, num, task, dv, modelLabel)
  {
    if res.params.None? || res.pvalues.None? then Err(AttributeError)
    else FixedEffectsToDf(res, num, task, dv, modelLabel)
  }

  /** A fit with neither t, z nor p-values (and no terms at all) makes the code raise,
      where the corrected table is simply empty. */
  lemma PValuesFallbackRaises(num: Numerics)
    requires Sound(num)
    ensures var res := Fitted(Some(Params([], [])), None, None, None, None, None,
                              None, None, None, None, None, None);
      && FixedEffectsToDfAsWritten(res, num, None, None, None) == Err(AttributeError)
      && FixedEffectsToDf(res, num, None, None, None).Ok?
      && FixedEffectsToDf(res, num, None, None, None).value.rows == []
  {
  }

  /** Every row: the term and its estimate in order; SE from `bse`, else `bse_fe`,
      else NaN; the statistic from `tvalues`, else `zvalues`, else beta / SE (so
      stat * SE == beta for a finite non-zero SE); the p-value from `pvalues`, else the
      two-sided normal p of the statistic; the interval from `conf_int()` or NaN. */
  lemma TidyRowFallbacks(res: Fitted, num: Numerics, i: nat)
    requires Sound(num) && res.WellFormed() && res.params.Some? && i < |res.params.value.terms|
    ensures var row := TidyRows(res, num)[i];
      var t := res.params.value.terms[i];
      && row.term == t && row.beta == res.params.value.beta[i]
      && (res.bse.Some? ==> row.se == Lookup(res.bse, t))
      && (res.bse.None? ==> row.se == Lookup(res.bseFe, t))
      && (res.tvalues.Some? ==> row.stat == Lookup(res.tvalues, t))
      && (res.tvalues.None? && res.zvalues.Some? ==> row.stat == Lookup(res.zvalues, t))
      && (res.tvalues.None? && res.zvalues.None? && row.se.Finite? && row.se.v != 0.0 ==>
            row.stat.Finite? && row.stat.v * row.se.v == row.beta)
      && (res.tvalues.None? && res.zvalues.None? && row.se.NaN? ==> row.stat.NaN?)
      && (res.pvalues.Some? ==> row.p == Lookup(res.pvalues, t))
      && (res.pvalues.None? ==> row.p == TwoSidedP(num, row.stat))
      && (res.confInt.None? ==> row.ciLow.NaN? && row.ciHigh.NaN?)
      && (res.confInt.Some? && t in res.confInt.value ==> (row.ciLow, row.ciHigh) == res.confInt.value[t])
  {
    var row := TidyRows(res, num)[i];
    if res.tvalues.None? && res.zvalues.None? && row.se.Finite? && row.se.v != 0.0 {
      assert row.stat == Finite(row.beta / row.se.v);
    }
  }

  /** The tidy table and the exported table agree on every term's SE and statistic,
      and the tidy p-value is the one the export formats and stars. */
  lemma TidyAgreesWithExport(res: Fitted, num: Numerics, i: nat)
    requires Sound(num) && res.WellFormed() && res.params.Some? && i < |res.params.value.terms|
    ensures var row := TidyRows(res, num)[i];
      var fixed := FixedTable(res, num)[i];
      && row.se == fixed.se && row.stat == fixed.stat
      && fixed.pValue == PValues.PFmt(row.p) && fixed.stars == PValues.PStars(row.p)
  {
  }

  /** Each requested annotation column is added once and nothing else is added. */
  lemma ColumnsAdded(task: Option<string>, dv: Option<string>, modelLabel: Option<string>)
    ensures multiset(Columns(task, dv, modelLabel)) == multiset(BaseColumns)
      + (if task.Some? then multiset{Task} else multiset{})
      + (if dv.Some? then multiset{DV} else multiset{})
      + (if modelLabel.Some? then multiset{ModelLabel} else multiset{})
  {
    var c0 := BaseColumns;
    var c1 := if task.Some? then InsertAt(c0, 0, Task) else c0;
    var c2 := if dv.Some? then InsertAt(c1, 1, DV) else c1;
    if task.Some? { InsertAtParts(c0, 0, Task); }
    if dv.Some? { InsertAtParts(c1, 1, DV); }
    if modelLabel.Some? { InsertAtParts(c2, 2, ModelLabel); }
  }

  /** With all three annotations they come first, in order; with none the table has
      the base columns. */
  lemma ColumnsAllOrNone(task: string, dv: string, modelLabel: string)
    ensures Columns(Some(task), Some(dv), Some(modelLabel)) == [Task, DV, ModelLabel] + BaseColumns
    ensures Columns(None, None, None) == BaseColumns
  {
  }

  /** Without a task the later inserts land among the base columns: "DV" right after
      "Term", and "ModelLabel" after "Term" and "beta". */
  lemma ColumnsWithoutTask(dv: string, modelLabel: string)
    ensures Columns(None, Some(dv), None) == [Term, DV, Beta, SE, Stat, P, CILow, CIHigh]
    ensures Columns(None, None, Some(modelLabel)) == [Term, Beta, ModelLabel, SE, Stat, P, CILow, CIHigh]
  {
  }
}
