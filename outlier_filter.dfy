/** `iqr_outlier_filter`: copy a data frame, group its rows by the `by` columns (a
    missing value is a group of its own) and mask each named variable per group. */
module OutlierFilter {
  import opened Wrappers
  import opened Outliers

  /** A data-frame cell: missing, a number, or text that does not parse as a number. */
  datatype Cell = NA | Num(x: real) | Text(s: string)

  /** `by` is either one column name or a list of them. */
  datatype By = Column(name: string) | Columns(names: seq<string>)

  /** `groupby([])` raises, as do a missing column and a column that cannot be read as
      floats. */
  datatype FilterError = NoGroupKeys | MissingColumn(name: string) | NotNumeric(name: string)

  /** `if isinstance(by, str): by = [by]`. */
  function ByList(groupBy: By): (r: seq<string>)
    ensures groupBy.Column? ==> r == [groupBy.name]
  {
    match groupBy
    case Column(c) => [c]
    case Columns(cs) => cs
  }

  /** Every column has n rows. */
  predicate Rectangular(cols: map<string, seq<Cell>>, n: nat) {
    forall c :: c in cols ==> |cols[c]| == n
  }

  predicate NoText(col: seq<Cell>) {
    forall i :: 0 <= i < |col| ==> !col[i].Text?
  }

  /** `to_numpy(dtype=float)`: missing cells become NaN, and text that does not parse
      as a number cannot be converted. */
  function ToFloats(col: seq<Cell>): (r: Option<seq<Option<real>>>)
    ensures r.Some? <==> NoText(col)
    ensures r.Some? ==> |r.value| == |col|
    ensures r.Some? ==>
      forall i :: 0 <= i < |col| ==> r.value[i] == (if col[i].Num? then Some(col[i].x) else None)
  {
    if NoText(col) then
      Some(seq(|col|, i requires 0 <= i < |col| => if col[i].Num? then Some(col[i].x) else None))
    else None
  }

  /** The masked float column written back into the frame. */
  function FromFloats(xs: seq<Option<real>>): (r: seq<Cell>)
    ensures |r| == |xs| && NoText(r)
    ensures forall i :: 0 <= i < |xs| ==> r[i] == (if xs[i].Some? then Num(xs[i].value) else NA)
  {
    seq(|xs|, i requires 0 <= i < |xs| => if xs[i].Some? then Num(xs[i].value) else NA)
  }

  /** The first name that is not a column, if any. */
  function FirstMissing(cols: map<string, seq<Cell>>, names: seq<string>): (r: Option<string>)
    ensures r.None? <==> forall t :: 0 <= t < |names| ==> names[t] in cols
    ensures r.Some? ==> r.value in names && r.value !in cols
  {
    if |names| == 0 then None
    else if names[0] !in cols then Some(names[0])
    else FirstMissing(cols, names[1..])
  }

  /** The group key of row i: its values in the `by` columns. */
  function GroupKeys(cols: map<string, seq<Cell>>, byCols: seq<string>, n: nat): (keys: seq<seq<Cell>>)
    requires Rectangular(cols, n) && forall t :: 0 <= t < |byCols| ==> byCols[t] in cols
    ensures |keys| == n
  {
    seq(n, i requires 0 <= i < n => seq(|byCols|, t requires 0 <= t < |byCols| => cols[byCols[t]][i]))
  }

  /** The loop over `variables`, each step reading the current frame. */
  function FilterVariables(cols: map<string, seq<Cell>>, n: nat, variables: seq<string>, keys: seq<seq<Cell>>)
    : (r: Result<map<string, seq<Cell>>, FilterError>)
    requires Rectangular(cols, n) && |keys| == n
    ensures r.Ok? ==> Rectangular(r.value, n)
    decreases |variables|
  {
    if |variables| == 0 then Ok(cols)
    else
      var v := variables[0];
      if v !in cols then Err(MissingColumn(v))
      else
        var xs := ToFloats(cols[v]);
        if xs.None? then Err(NotNumeric(v))
        else FilterVariables(cols[v := FromFloats(MaskByGroup(xs.value, keys))], n, variables[1..], keys)
  }

  /** What `iqr_outlier_filter` returns for a frame with columns `cols` and n rows. */
  function FilterSpec(cols: map<string, seq<Cell>>, n: nat, variables: seq<string>, groupBy: By)
    : Result<map<string, seq<Cell>>, FilterError>
    requires Rectangular(cols, n)
  {
    var byCols := ByList(groupBy);
    if |byCols| == 0 then Err(NoGroupKeys)
    else
      var missing := FirstMissing(cols, byCols);
      if missing.Some? then Err(MissingColumn(missing.value))
      else FilterVariables(cols, n, variables, GroupKeys(cols, byCols, n))
  }

  /** A single column name behaves as the one-element list. */
  lemma ByStringIsList(cols: map<string, seq<Cell>>, n: nat, variables: seq<string>, b: string)
    requires Rectangular(cols, n)
    ensures FilterSpec(cols, n, variables, Column(b)) == FilterSpec(cols, n, variables, Columns([b]))
  {
  }

  /** The filter keeps the set of columns and the number of rows, leaves every column
      not named in `variables` as it was, and only ever turns cells into missing ones. */
  lemma {:induction false} FilterShape(cols: map<string, seq<Cell>>, n: nat, variables: seq<string>,
                                       keys: seq<seq<Cell>>)
    requires Rectangular(cols, n) && |keys| == n
    requires FilterVariables(cols, n, variables, keys).Ok?
    ensures var out := FilterVariables(cols, n, variables, keys).value;
      && out.Keys == cols.Keys
      && (forall c :: c in cols && c !in variables ==> out[c] == cols[c])
      && (forall c, i :: c in cols && 0 <= i < n ==> out[c][i] == cols[c][i] || out[c][i] == NA)
    decreases |variables|
  {
    if |variables| > 0 {
      var v := variables[0];
      var xs := ToFloats(cols[v]).value;
      var masked := MaskByGroup(xs, keys);
      var next := cols[v := FromFloats(masked)];
      FilterShape(next, n, variables[1..], keys);
      MaskByGroupOnlyRemoves(xs, keys);
      forall c | c in cols && c !in variables
        ensures c !in variables[1..]
      {
      }
    }
  }

  lemma MaskByGroupOnlyRemoves(xs: seq<Option<real>>, keys: seq<seq<Cell>>)
    requires |xs| == |keys|
    ensures forall i :: 0 <= i < |xs| ==> MaskByGroup(xs, keys)[i] == xs[i] || MaskByGroup(xs, keys)[i].None?
  {
  }

  /** The filter succeeds whenever every variable is a numeric column. */
  lemma {:induction false} FilterSucceeds(cols: map<string, seq<Cell>>, n: nat, variables: seq<string>,
                                          keys: seq<seq<Cell>>)
    requires Rectangular(cols, n) && |keys| == n
    requires forall t :: 0 <= t < |variables| ==> variables[t] in cols && NoText(cols[variables[t]])
    ensures FilterVariables(cols, n, variables, keys).Ok?
    decreases |variables|
  {
    if |variables| > 0 {
      var v := variables[0];
      var next := cols[v := FromFloats(MaskByGroup(ToFloats(cols[v]).value, keys))];
      assert forall t :: 0 <= t < |variables[1..]| ==> variables[1..][t] == variables[t + 1];
      FilterSucceeds(next, n, variables[1..], keys);
    }
  }

  /** Every error names a column the caller asked for. */
  lemma {:induction false} FilterErrors(cols: map<string, seq<Cell>>, n: nat, variables: seq<string>,
                                        keys: seq<seq<Cell>>)
    requires Rectangular(cols, n) && |keys| == n
    requires FilterVariables(cols, n, variables, keys).Err?
    ensures match FilterVariables(cols, n, variables, keys).error
      case MissingColumn(v) => v in variables && v !in cols
      case NotNumeric(v) => v in variables && v in cols
      case NoGroupKeys => false
    decreases |variables|
  {
    if |variables| > 0 {
      var v := variables[0];
      if v in cols && ToFloats(cols[v]).Some? {
        var next := cols[v := FromFloats(MaskByGroup(ToFloats(cols[v]).value, keys))];
        FilterErrors(next, n, variables[1..], keys);
      }
    }
  }

  /** A data frame: named columns of equal length. */
  class Frame {
    var columns: map<string, seq<Cell>>
    var nrows: nat

    ghost predicate Valid()
      reads this
    {
      Rectangular(columns, nrows)
    }

    constructor (cols: map<string, seq<Cell>>, n: nat)
      requires Rectangular(cols, n)
      ensures columns == cols && nrows == n && Valid()
    {
      columns := cols;
      nrows := n;
    }

    /** `df.copy()`. */
    method Copy() returns (f: Frame)
      requires Valid()
      ensures fresh(f) && f.columns == columns && f.nrows == nrows && f.Valid()
    {
      f := new Frame(columns, nrows);
    }

    /** `out[v] = values`: replace or add one column. */
    method SetColumn(v: string, values: seq<Cell>)
      requires Valid() && |values| == nrows
      modifies this
      ensures columns == old(columns)[v := values] && nrows == old(nrows) && Valid()
    {
      columns := columns[v := values];
    }
  }

  /** `iqr_outlier_filter`: the input frame is not modified; the result is a new frame
      whose columns are those `FilterSpec` describes. */
  method IqrOutlierFilter(df: Frame, variables: seq<string>, groupBy: By) returns (r: Result<Frame, FilterError>)
    requires df.Valid()
    ensures r.Err? <==> FilterSpec(df.columns, df.nrows, variables, groupBy).Err?
    ensures r.Err? ==> FilterSpec(df.columns, df.nrows, variables, groupBy) == Err(r.error)
    ensures r.Ok? ==> fresh(r.value) && r.value.Valid() && r.value.nrows == df.nrows
    ensures r.Ok? ==> FilterSpec(df.columns, df.nrows, variables, groupBy) == Ok(r.value.columns)
  {
    var out := df.Copy();
    var byCols := ByList(groupBy);
    if |byCols| == 0 {
      return Err(NoGroupKeys);
    }
    var missing := FirstMissing(out.columns, byCols);
    if missing.Some? {
      return Err(MissingColumn(missing.value));
    }
    var n := out.nrows;
    var keys := GroupKeys(out.columns, byCols, n);
    var i := 0;
    while i < |variables|
      invariant 0 <= i <= |variables|
      invariant fresh(out) && out.Valid() && out.nrows == n
      invariant FilterSpec(df.columns, n, variables, groupBy) == FilterVariables(out.columns, n, variables[i..], keys)
    {
      var v := variables[i];
      assert variables[i..][1..] == variables[i + 1..];
      if v !in out.columns {
        return Err(MissingColumn(v));
      }
      var xs := ToFloats(out.columns[v]);
      if xs.None? {
        return Err(NotNumeric(v));
      }
      out.SetColumn(v, FromFloats(MaskByGroup(xs.value, keys)));
      i := i + 1;
    }
    return Ok(out);
  }
}
