/** Significance brackets over a categorical x-axis: where a category sits (an
    explicit mapping, or the axis's own tick labels), and the bracket and label that
    `add_stat_brackets` draws for each comparison. */
module Brackets {
  import opened Wrappers

  /** A category that neither the mapping nor the tick labels know. */
  datatype PlotError = KeyError(category: string)

  // ---------------------------------------------------------------- positions

  /** `{lab: x for lab, x in zip(labels, ticks)}` over the first n pairs: a later
      pair overwrites an earlier one with the same label. */
  function LabelMap(labels: seq<string>, ticks: seq<real>, n: nat): (m: map<string, real>)
    requires n <= |labels| && n <= |ticks|
    ensures forall c :: c in m <==> exists i :: 0 <= i < n && labels[i] == c
  {
    if n == 0 then map[] else LabelMap(labels, ticks, n - 1)[labels[n - 1] := ticks[n - 1]]
  }

  function Min(a: nat, b: nat): nat { if a <= b then a else b }

  /** The position of a label among the zipped pairs is that of its last occurrence. */
  lemma {:induction false} LastOccurrenceWins(labels: seq<string>, ticks: seq<real>, n: nat, i: nat)
    requires n <= |labels| && n <= |ticks| && i < n
    requires forall j :: i < j < n ==> labels[j] != labels[i]
    ensures LabelMap(labels, ticks, n)[labels[i]] == ticks[i]
  {
    if i < n - 1 {
      LastOccurrenceWins(labels, ticks, n - 1, i);
    }
  }

  /** `_xpos_for_category_from_ticks`: the tick position of the category, or
      KeyError when it is not among the tick labels (labels without a tick are
      ignored). */
  function XposFromTicks(ticks: seq<real>, labels: seq<string>, category: string): (r: Result<real, PlotError>)
    ensures r.Err? <==> forall i :: 0 <= i < Min(|labels|, |ticks|) ==> labels[i] != category
    ensures r.Err? ==> r.error == KeyError(category)
  {
    var lab2x := LabelMap(labels, ticks, Min(|labels|, |ticks|));
    if category !in lab2x then Err(KeyError(category)) else Ok(lab2x[category])
  }

  /** The position found from the ticks is the tick paired with the last occurrence
      of the category among the labels. */
  lemma XposIsLastTick(ticks: seq<real>, labels: seq<string>, i: nat)
    requires i < |labels| && i < |ticks|
    requires forall j :: i < j < Min(|labels|, |ticks|) ==> labels[j] != labels[i]
    ensures XposFromTicks(ticks, labels, labels[i]) == Ok(ticks[i])
  {
    LastOccurrenceWins(labels, ticks, Min(|labels|, |ticks|), i);
  }

  /** Duplicate labels: with labels "A", "B", "A" at ticks 0, 1, 2, "A" sits at 2. */
  lemma DuplicateLabelExample(a: string, b: string)
    requires a != b
    ensures XposFromTicks([0.0, 1.0, 2.0], [a, b, a], a) == Ok(2.0)
    ensures XposFromTicks([0.0, 1.0, 2.0], [a, b, a], b) == Ok(1.0)
  {
    XposIsLastTick([0.0, 1.0, 2.0], [a, b, a], 2);
    XposIsLastTick([0.0, 1.0, 2.0], [a, b, a], 1);
  }

  /** `_xpos_for_category`: an explicit mapping, when given, is the only source, and a
      key missing from it raises; otherwise the tick labels are used. */
  function Xpos(xmap: Option<map<string, real>>, ticks: seq<real>, labels: seq<string>, category: string)
    : (r: Result<real, PlotError>)
    ensures xmap.Some? ==> (r.Err? <==> category !in xmap.value)
    ensures xmap.Some? && category in xmap.value ==> r == Ok(xmap.value[category])
    ensures xmap.None? ==> r == XposFromTicks(ticks, labels, category)
    ensures r.Err? ==> r.error == KeyError(category)
  {
    if xmap.Some? then
      if category !in xmap.value then Err(KeyError(category)) else Ok(xmap.value[category])
    else XposFromTicks(ticks, labels, category)
  }

  // ---------------------------------------------------------------- geometry

  datatype Polyline = Polyline(xs: seq<real>, ys: seq<real>)
  datatype TextLabel = TextLabel(x: real, y: real, text: string)
  datatype Bracket = Bracket(line: Polyline, caption: TextLabel)

  /** What the axes show when the brackets are drawn: the tick positions and labels
      and the y-limits `(y0, y1)`. */
  datatype AxesView = AxesView(ticks: seq<real>, tickLabels: seq<string>, ylim: (real, real))

  /** The arguments of `add_stat_brackets` that decide what is drawn. */
  datatype Request = Request(
    xmap: Option<map<string, real>>,
    comparisons: seq<(string, string)>,
    yPositions: seq<real>,
    labels: seq<string>,
    bracketHeight: real,
    textOffset: real)

  const DefaultBracketHeight: real := 0.02
  const DefaultTextOffset: real := 0.01

  /** One bracket per element of the shortest of the three lists. */
  function Count(req: Request): (n: nat)
    ensures n <= |req.comparisons| && n <= |req.yPositions| && n <= |req.labels|
    ensures n == |req.comparisons| || n == |req.yPositions| || n == |req.labels|
  {
    Min(Min(|req.comparisons|, |req.yPositions|), |req.labels|)
  }

  /** A bracket from a to b over baseline y: the ends are put in ascending order, the
      legs rise by h, and the label sits at the midpoint, tofs above the bar. */
  function Shape(a: real, b: real, y: real, h: real, tofs: real, text: string): (br: Bracket)
    ensures var lo := if a <= b then a else b;
      var hi := if a <= b then b else a;
      && br.line == Polyline([lo, lo, hi, hi], [y, y + h, y + h, y])
      && br.caption == TextLabel((lo + hi) / 2.0, y + h + tofs, text)
  {
    var (x1, x2) := if a > b then (b, a) else (a, b);
    Bracket(Polyline([x1, x1, x2, x2], [y, y + h, y + h, y]), TextLabel((x1 + x2) / 2.0, y + h + tofs, text))
  }

  /** The order of the two categories does not matter, and the label lies between the
      two legs. */
  lemma ShapeSymmetric(a: real, b: real, y: real, h: real, tofs: real, text: string)
    ensures Shape(a, b, y, h, tofs, text) == Shape(b, a, y, h, tofs, text)
    ensures var br := Shape(a, b, y, h, tofs, text);
      br.line.xs[0] <= br.caption.x <= br.line.xs[3]
  {
  }

  /** `h_px` and `tofs`: the bar height and the label gap, as fractions of the
      y-range. */
  function Rise(view: AxesView, req: Request): real {
    req.bracketHeight * (view.ylim.1 - view.ylim.0)
  }

  function Gap(view: AxesView, req: Request): real {
    req.textOffset * (view.ylim.1 - view.ylim.0)
  }

  /** The i-th bracket, or the KeyError of its first category that cannot be placed
      (g1 is looked up before g2). */
  function BracketAt(view: AxesView, req: Request, i: nat): (r: Result<Bracket, PlotError>)
    requires i < Count(req)
  {
    var g1, g2 := req.comparisons[i].0, req.comparisons[i].1;
    var x1 := Xpos(req.xmap, view.ticks, view.tickLabels, g1);
    if x1.Err? then Err(x1.error)
    else
      var x2 := Xpos(req.xmap, view.ticks, view.tickLabels, g2);
      if x2.Err? then Err(x2.error)
      else Ok(Shape(x1.value, x2.value, req.yPositions[i], Rise(view, req), Gap(view, req), req.labels[i]))
  }

  /** The bracket of comparison i: its legs stand at the two categories' positions,
      left one first; its bar is `bracket_height` of the y-range above the baseline;
      its label is centred over the bar, another `text_offset` of the y-range up. */
  lemma BracketGeometry(view: AxesView, req: Request, i: nat)
    requires i < Count(req) && BracketAt(view, req, i).Ok?
    ensures var br := BracketAt(view, req, i).value;
      var x1 := Xpos(req.xmap, view.ticks, view.tickLabels, req.comparisons[i].0).value;
      var x2 := Xpos(req.xmap, view.ticks, view.tickLabels, req.comparisons[i].1).value;
      && |br.line.xs| == 4
      && br.line.xs[0] == br.line.xs[1] <= br.line.xs[2] == br.line.xs[3]
      && {br.line.xs[0], br.line.xs[3]} == {x1, x2}
      && br.caption.x == (x1 + x2) / 2.0
    ensures var br := BracketAt(view, req, i).value;
      var y := req.yPositions[i];
      var h := req.bracketHeight * (view.ylim.1 - view.ylim.0);
      && br.line.ys == [y, y + h, y + h, y]
      && br.caption.y == y + h + req.textOffset * (view.ylim.1 - view.ylim.0)
      && br.caption.text == req.labels[i]
  {
    var x1 := Xpos(req.xmap, view.ticks, view.tickLabels, req.comparisons[i].0).value;
    var x2 := Xpos(req.xmap, view.ticks, view.tickLabels, req.comparisons[i].1).value;
    var br := Shape(x1, x2, req.yPositions[i], Rise(view, req), Gap(view, req), req.labels[i]);
    assert BracketAt(view, req, i) == Ok(br);
    var y, h := req.yPositions[i], req.bracketHeight * (view.ylim.1 - view.ylim.0);
    assert Rise(view, req) == h;
    assert br.line.ys == [y, y + h, y + h, y];
    assert br.caption.y == y + h + Gap(view, req);
    if x1 <= x2 {
      assert br.line.xs[0] == x1 && br.line.xs[3] == x2;
    } else {
      assert br.line.xs[0] == x2 && br.line.xs[3] == x1;
    }
  }

  /** A comparison fails exactly when one of its categories cannot be placed, and the
      error names the first of them that cannot. */
  lemma BracketFails(view: AxesView, req: Request, i: nat)
    requires i < Count(req)
    ensures var (g1, g2) := req.comparisons[i];
      var x1 := Xpos(req.xmap, view.ticks, view.tickLabels, g1);
      var x2 := Xpos(req.xmap, view.ticks, view.tickLabels, g2);
      && (BracketAt(view, req, i).Err? <==> x1.Err? || x2.Err?)
      && (x1.Err? ==> BracketAt(view, req, i) == Err(KeyError(g1)))
      && (x1.Ok? && x2.Err? ==> BracketAt(view, req, i) == Err(KeyError(g2)))
  {
  }

  // ---------------------------------------------------------------- drawing

  /** The brackets drawn by the first n steps of the loop, and the error that stopped
      it, if any: everything before the failing comparison stays drawn. */
  datatype Outcome = Outcome(drawn: seq<Bracket>, raised: Option<PlotError>)

  function Drawn(view: AxesView, req: Request, n: nat): (o: Outcome)
    requires n <= Count(req)
    ensures |o.drawn| <= n
    ensures o.raised.None? ==> |o.drawn| == n
  {
    if n == 0 then Outcome([], None)
    else
      var prev := Drawn(view, req, n - 1);
      if prev.raised.Some? then prev
      else
        match BracketAt(view, req, n - 1)
        case Err(e) => Outcome(prev.drawn, Some(e))
        case Ok(br) => Outcome(prev.drawn + [br], None)
  }

  /** The outcome is the prefix of brackets before the first comparison that fails,
      and that comparison's error. */
  lemma {:induction false} DrawnIsPrefix(view: AxesView, req: Request, n: nat)
    requires n <= Count(req)
    ensures var o := Drawn(view, req, n);
      && (forall k :: 0 <= k < |o.drawn| ==> BracketAt(view, req, k) == Ok(o.drawn[k]))
      && (o.raised.Some? ==> |o.drawn| < n && BracketAt(view, req, |o.drawn|) == Err(o.raised.value))
      && (o.raised.None? ==> forall k :: 0 <= k < n ==> BracketAt(view, req, k).Ok?)
  {
    if n > 0 {
      DrawnIsPrefix(view, req, n - 1);
    }
  }

  function Lines(bs: seq<Bracket>): (r: seq<Polyline>)
    ensures |r| == |bs| && forall k :: 0 <= k < |bs| ==> r[k] == bs[k].line
  {
    seq(|bs|, k requires 0 <= k < |bs| => bs[k].line)
  }

  function Texts(bs: seq<Bracket>): (r: seq<TextLabel>)
    ensures |r| == |bs| && forall k :: 0 <= k < |bs| ==> r[k] == bs[k].caption
  {
    seq(|bs|, k requires 0 <= k < |bs| => bs[k].caption)
  }

  /** A matplotlib axes, reduced to what the brackets read and add. */
  class Axes {
    var xticks: seq<real>
    var xtickLabels: seq<string>
    var ylim: (real, real)
    var lines: seq<Polyline>
    var texts: seq<TextLabel>

    constructor (ticks: seq<real>, tickLabels: seq<string>, limits: (real, real))
      ensures xticks == ticks && xtickLabels == tickLabels && ylim == limits
      ensures lines == [] && texts == []
    {
      xticks := ticks;
      xtickLabels := tickLabels;
      ylim := limits;
      lines := [];
      texts := [];
    }

    function View(): AxesView
      reads this
    {
      AxesView(xticks, xtickLabels, ylim)
    }

    /** `ax.plot(xs, ys, ...)`. */
    method Plot(line: Polyline)
      modifies this
      ensures lines == old(lines) + [line]
      ensures texts == old(texts) && View() == old(View())
    {
      lines := lines + [line];
    }

    /** `ax.text(x, y, s, ...)`. */
    method Text(t: TextLabel)
      modifies this
      ensures texts == old(texts) + [t]
      ensures lines == old(lines) && View() == old(View())
    {
      texts := texts + [t];
    }
  }

  /** `add_stat_brackets`: draws one bracket and one label per comparison, in order,
      until a category cannot be placed; the brackets drawn before that stay on the
      axes, and the error is returned. */
  method AddStatBrackets(ax: Axes, req: Request) returns (raised: Option<PlotError>)
    modifies ax
    ensures var o := Drawn(old(ax.View()), req, Count(req));
      && raised == o.raised
      && ax.lines == old(ax.lines) + Lines(o.drawn)
      && ax.texts == old(ax.texts) + Texts(o.drawn)
      && ax.View() == old(ax.View())
  {
    var view := ax.View();
    var hPx := Rise(view, req);
    var tofs := Gap(view, req);
    var n := Count(req);
    var i := 0;
    while i < n
      invariant 0 <= i <= n
      invariant Drawn(view, req, i).raised.None?
      invariant ax.lines == old(ax.lines) + Lines(Drawn(view, req, i).drawn)
      invariant ax.texts == old(ax.texts) + Texts(Drawn(view, req, i).drawn)
      invariant ax.View() == view
    {
      var g1, g2 := req.comparisons[i].0, req.comparisons[i].1;
      var x1 := Xpos(req.xmap, ax.xticks, ax.xtickLabels, g1);
      if x1.Err? {
        DrawnStops(view, req, i, n);
        return Some(x1.error);
      }
      var x2 := Xpos(req.xmap, ax.xticks, ax.xtickLabels, g2);
      if x2.Err? {
        DrawnStops(view, req, i, n);
        return Some(x2.error);
      }
      var a, b := x1.value, x2.value;
      if a > b {
        a, b := b, a;
      }
      ghost var before := Drawn(view, req, i).drawn;
      ghost var br := BracketAt(view, req, i).value;
      assert br == Shape(x1.value, x2.value, req.yPositions[i], hPx, tofs, req.labels[i]);
      ax.Plot(Polyline([a, a, b, b], [req.yPositions[i], req.yPositions[i] + hPx, req.yPositions[i] + hPx, req.yPositions[i]]));
      ax.Text(TextLabel((a + b) / 2.0, req.yPositions[i] + hPx + tofs, req.labels[i]));
      assert Lines(before + [br]) == Lines(before) + [br.line];
      assert Texts(before + [br]) == Texts(before) + [br.caption];
      i := i + 1;
    }
    return None;
  }

  /** Once step i raises, later steps change nothing. */
  lemma {:induction false} DrawnStops(view: AxesView, req: Request, i: nat, n: nat)
    requires i < n <= Count(req)
    requires Drawn(view, req, i).raised.None? && BracketAt(view, req, i).Err?
    ensures Drawn(view, req, n) == Outcome(Drawn(view, req, i).drawn, Some(BracketAt(view, req, i).error))
  {
    if n > i + 1 {
      DrawnStops(view, req, i, n - 1);
    }
  }
}
