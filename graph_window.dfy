/**
 * The Qt front-end's graph window (`GraphWindow.generate_graph`): each seaborn
 * call is abstracted into a series record, and a drawing is the list of series
 * in call order, the pie slices, the title and the axis labels.
 */
module GraphWindow {
  import opened Wrappers
  import opened Table
  import opened Text
  import opened GraphOptions

  /** The seaborn routine a series is drawn with. */
  datatype PlotCall = LineCall | BarCall | ScatterCall | HistCall | KdeCall | RegCall

  /** One plotting call: its routine, x column, y column (absent for the
      distribution plots) and legend label. */
  datatype Series = Series(call: PlotCall, x: string, y: Option<string>, legend: string)

  /** A finished figure. `pie` holds the slice frequencies when a pie was drawn. */
  datatype Figure = Figure(series: seq<Series>, pie: Option<map<Value, nat>>,
                           title: string, xLabel: string, yLabel: string)

  /** The figure is drawn, or an exception inside the plotting block was caught
      and shown as a "Plotting Error" warning. */
  datatype Drawing = Drawn(figure: Figure) | PlottingError

  /** Line and Bar: one series per Y column, each against the first X column,
      labelled with the Y column's name. */
  function PerY(call: PlotCall, xs: seq<string>, ys: seq<string>): seq<Series>
    requires xs != [] || ys == []
  {
    seq(|ys|, i requires 0 <= i < |ys| => Series(call, xs[0], Some(ys[i]), ys[i]))
  }

  /** Histogram and Area: one series per X column, labelled with its name. */
  function PerX(call: PlotCall, xs: seq<string>): seq<Series>
  {
    seq(|xs|, i requires 0 <= i < |xs| => Series(call, xs[i], None, xs[i]))
  }

  /** The inner loop of Scatter and Regression: one series per X column
      against the Y column `y`. */
  function Row(call: PlotCall, xs: seq<string>, y: string): seq<Series>
  {
    seq(|xs|, j requires 0 <= j < |xs| => Series(call, xs[j], Some(y), y + " vs " + xs[j]))
  }

  /** Scatter and Regression: the rows for the Y columns, in Y order. */
  function Pairs(call: PlotCall, xs: seq<string>, ys: seq<string>): seq<Series>
    decreases |ys|
  {
    if ys == [] then [] else Pairs(call, xs, ys[..|ys| - 1]) + Row(call, xs, ys[|ys| - 1])
  }

  /** The series a graph type produces; a name with no branch produces none,
      and so does "Pie Chart", whose slices are not series. */
  function SeriesFor(graphType: string, xs: seq<string>, ys: seq<string>): seq<Series>
    requires graphType == LinePlot || graphType == BarChart ==> xs != [] || ys == []
  {
    if graphType == LinePlot then PerY(LineCall, xs, ys)
    else if graphType == BarChart then PerY(BarCall, xs, ys)
    else if graphType == ScatterPlot then Pairs(ScatterCall, xs, ys)
    else if graphType == Histogram then PerX(HistCall, xs)
    else if graphType == AreaPlot then PerX(KdeCall, xs)
    else if graphType == RegressionPlot then Pairs(RegCall, xs, ys)
    else []
  }

  /** A pie is drawn only for exactly one Y column; its slices are the value
      counts of that column. */
  function PieFor(graphType: string, ys: seq<string>, frame: Frame): Option<map<Value, nat>>
    requires forall c :: c in ys ==> c in frame
  {
    if graphType == PieChart && |ys| == 1 then Some(ValueCounts(frame[ys[0]].cells)) else None
  }

  /** `"<type> of <Y joined by ' and '> vs <X joined by ' and '>"`. */
  function Title(graphType: string, xs: seq<string>, ys: seq<string>): string
  {
    graphType + " of " + Join(" and ", ys) + " vs " + Join(" and ", xs)
  }

  /** What `generate_graph` draws. The only exception modelled is indexing
      the first X column of an empty X selection for Line and Bar while there
      is a Y column to plot; seaborn's own exceptions are not modelled. */
  function Plan(graphType: string, xs: seq<string>, ys: seq<string>, frame: Frame): Drawing
    requires Selectable(frame, xs, ys)
  {
    if (graphType == LinePlot || graphType == BarChart) && xs == [] && ys != [] then PlottingError
    else Drawn(Figure(SeriesFor(graphType, xs, ys), PieFor(graphType, ys, frame),
                      Title(graphType, xs, ys), Join(" & ", xs), Join(" & ", ys)))
  }

  /** The Scatter and Regression series: |Y|·|X| of them, Y outer and X inner,
      the one at position i·|X| + j pairing the i-th Y column with the j-th X
      column. */
  lemma {:induction false} PairsAt(call: PlotCall, xs: seq<string>, ys: seq<string>, i: int, j: int)
    requires 0 <= i < |ys| && 0 <= j < |xs|
    ensures |Pairs(call, xs, ys)| == |ys| * |xs|
    ensures i * |xs| + j < |ys| * |xs|
    ensures Pairs(call, xs, ys)[i * |xs| + j] == Series(call, xs[j], Some(ys[i]), ys[i] + " vs " + xs[j])
  {
    var n := |ys| - 1;
    var init := ys[..n];
    PairsLength(call, xs, init);
    assert |ys| * |xs| == n * |xs| + |xs|;
    if i < n {
      PairsAt(call, xs, init, i, j);
      assert init[i] == ys[i];
    } else {
      assert i * |xs| == n * |xs|;
    }
  }

  lemma {:induction false} PairsLength(call: PlotCall, xs: seq<string>, ys: seq<string>)
    ensures |Pairs(call, xs, ys)| == |ys| * |xs|
    decreases |ys|
  {
    if ys != [] {
      PairsLength(call, xs, ys[..|ys| - 1]);
      assert |ys| * |xs| == (|ys| - 1) * |xs| + |xs|;
    }
  }

  /** The one failure the model itself produces is Line or Bar with no X
      column but some Y column; exceptions raised by seaborn are not modelled. */
  lemma PlanFailsIff(graphType: string, xs: seq<string>, ys: seq<string>, frame: Frame)
    requires Selectable(frame, xs, ys)
    ensures Plan(graphType, xs, ys, frame).PlottingError? <==>
      (graphType == LinePlot || graphType == BarChart) && xs == [] && ys != []
  {
  }

  /** Line and Bar: one series per Y column, in Y order, each against the
      first X column and labelled with the Y column. */
  lemma PlanPerYSeries(graphType: string, xs: seq<string>, ys: seq<string>, frame: Frame)
    requires Selectable(frame, xs, ys)
    requires graphType == LinePlot || graphType == BarChart
    requires xs != []
    ensures Plan(graphType, xs, ys, frame).Drawn?
    ensures var s := Plan(graphType, xs, ys, frame).figure.series;
      |s| == |ys| &&
      forall i :: 0 <= i < |ys| ==> s[i].x == xs[0] && s[i].y == Some(ys[i]) && s[i].legend == ys[i]
  {
  }

  /** Histogram and Area: one series per X column, in X order; the Y
      selection is ignored. */
  lemma PlanPerXSeries(graphType: string, xs: seq<string>, ys: seq<string>, frame: Frame)
    requires Selectable(frame, xs, ys)
    requires graphType == Histogram || graphType == AreaPlot
    ensures Plan(graphType, xs, ys, frame).Drawn?
    ensures var s := Plan(graphType, xs, ys, frame).figure.series;
      |s| == |xs| &&
      forall i :: 0 <= i < |xs| ==> s[i].x == xs[i] && s[i].y == None && s[i].legend == xs[i]
  {
  }

  /** Scatter and Regression: |Y|·|X| series, Y outer and X inner; the one
      at position i·|X| + j pairs the i-th Y column with the j-th X column
      and is labelled "<y> vs <x>". */
  lemma PlanPairSeries(graphType: string, xs: seq<string>, ys: seq<string>, frame: Frame, i: int, j: int)
    requires Selectable(frame, xs, ys)
    requires graphType == ScatterPlot || graphType == RegressionPlot
    requires 0 <= i < |ys| && 0 <= j < |xs|
    ensures Plan(graphType, xs, ys, frame).Drawn?
    ensures var s := Plan(graphType, xs, ys, frame).figure.series;
      |s| == |ys| * |xs| && i * |xs| + j < |s| &&
      s[i * |xs| + j].x == xs[j] && s[i * |xs| + j].y == Some(ys[i]) &&
      s[i * |xs| + j].legend == ys[i] + " vs " + xs[j]
  {
    var call := if graphType == ScatterPlot then ScatterCall else RegCall;
    assert Plan(graphType, xs, ys, frame).figure.series == Pairs(call, xs, ys);
    PairsAt(call, xs, ys, i, j);
  }

  /** Any other graph type, "Pie Chart" and unknown names alike, draws no
      series; the title and labels are still set. */
  lemma PlanNoSeries(graphType: string, xs: seq<string>, ys: seq<string>, frame: Frame)
    requires Selectable(frame, xs, ys)
    requires graphType !in NumericPlots
    ensures Plan(graphType, xs, ys, frame).Drawn?
    ensures Plan(graphType, xs, ys, frame).figure.series == []
    ensures Plan(graphType, xs, ys, frame).figure.title == Title(graphType, xs, ys)
  {
  }

  /** The pie rule: slices are drawn only for "Pie Chart" with exactly one Y
      column, and then there is one slice per distinct present value of that
      column, sized by its frequency. No other graph type draws a pie, and the
      pie draws no series. */
  lemma PieRule(graphType: string, xs: seq<string>, ys: seq<string>, frame: Frame)
    requires Selectable(frame, xs, ys)
    ensures Plan(graphType, xs, ys, frame).Drawn? ==>
      var f := Plan(graphType, xs, ys, frame).figure;
      (f.pie.Some? <==> graphType == PieChart && |ys| == 1) &&
      (graphType == PieChart ==> f.series == []) &&
      (f.pie.Some? ==> forall v :: (v in f.pie.value <==> Present(v) in frame[ys[0]].cells) &&
                                   (v in f.pie.value ==> f.pie.value[v] == multiset(frame[ys[0]].cells)[Present(v)]))
  {
  }

  /** With several columns selected, each label names them all in selection
      order: one more Y column extends the title and the y-label by that name. */
  lemma {:induction false} LabelsGrow(graphType: string, xs: seq<string>, ys: seq<string>, y: string, frame: Frame)
    requires Selectable(frame, xs, ys + [y])
    requires ys != [] && xs != []
    ensures Plan(graphType, xs, ys + [y], frame).Drawn?
    ensures Plan(graphType, xs, ys + [y], frame).figure.title ==
      graphType + " of " + Join(" and ", ys) + " and " + y + " vs " + Join(" and ", xs)
    ensures Plan(graphType, xs, ys + [y], frame).figure.yLabel == Join(" & ", ys) + " & " + y
  {
    JoinAppend(" and ", ys, y);
    JoinAppend(" & ", ys, y);
  }

  /** With one X and one Y column the labels are the column names themselves. */
  lemma LabelsOfSingleColumns(graphType: string, x: string, y: string, frame: Frame)
    requires x in frame && y in frame
    ensures Plan(graphType, [x], [y], frame).Drawn?
    ensures Plan(graphType, [x], [y], frame).figure.title == graphType + " of " + y + " vs " + x
    ensures Plan(graphType, [x], [y], frame).figure.xLabel == x
    ensures Plan(graphType, [x], [y], frame).figure.yLabel == y
  {
  }

  /** The loop of Line and Bar. */
  method PlotEachY(call: PlotCall, xs: seq<string>, ys: seq<string>) returns (series: seq<Series>)
    requires xs != [] || ys == []
    ensures |series| == |ys|
    ensures forall i :: 0 <= i < |ys| ==> series[i] == Series(call, xs[0], Some(ys[i]), ys[i])
  {
    series := [];
    for i := 0 to |ys|
      invariant |series| == i
      invariant forall k :: 0 <= k < i ==> series[k] == Series(call, xs[0], Some(ys[k]), ys[k])
    {
      series := series + [Series(call, xs[0], Some(ys[i]), ys[i])];
    }
  }

  /** The loop of Histogram and Area. */
  method PlotEachX(call: PlotCall, xs: seq<string>) returns (series: seq<Series>)
    ensures |series| == |xs|
    ensures forall i :: 0 <= i < |xs| ==> series[i] == Series(call, xs[i], None, xs[i])
  {
    series := [];
    for i := 0 to |xs|
      invariant |series| == i
      invariant forall k :: 0 <= k < i ==> series[k] == Series(call, xs[k], None, xs[k])
    {
      series := series + [Series(call, xs[i], None, xs[i])];
    }
  }

  /** The nested loops of Scatter and Regression: Y outer, X inner. */
  method PlotEachPair(call: PlotCall, xs: seq<string>, ys: seq<string>) returns (series: seq<Series>)
    ensures series == Pairs(call, xs, ys)
  {
    series := [];
    for i := 0 to |ys|
      invariant series == Pairs(call, xs, ys[..i])
    {
      assert ys[..i + 1][..i] == ys[..i];
      var rowStart := series;
      for j := 0 to |xs|
        invariant series == rowStart + Row(call, xs[..j], ys[i])
      {
        assert Row(call, xs[..j + 1], ys[i]) == Row(call, xs[..j], ys[i]) + [Series(call, xs[j], Some(ys[i]), ys[i] + " vs " + xs[j])];
        series := series + [Series(call, xs[j], Some(ys[i]), ys[i] + " vs " + xs[j])];
      }
      assert xs[..|xs|] == xs;
    }
    assert ys[..|ys|] == ys;
  }

  /** `generate_graph`: dispatch on the graph type, then set the title and the
      axis labels. */
  method GenerateGraph(graphType: string, xs: seq<string>, ys: seq<string>, frame: Frame)
    returns (drawing: Drawing)
    requires Selectable(frame, xs, ys)
    ensures drawing == Plan(graphType, xs, ys, frame)
  {
    var series: seq<Series> := [];
    var pie: Option<map<Value, nat>> := None;
    if graphType == LinePlot || graphType == BarChart {
      if xs == [] && ys != [] {
        return PlottingError;
      }
      series := PlotEachY(if graphType == LinePlot then LineCall else BarCall, xs, ys);
    } else if graphType == ScatterPlot {
      series := PlotEachPair(ScatterCall, xs, ys);
    } else if graphType == Histogram {
      series := PlotEachX(HistCall, xs);
    } else if graphType == AreaPlot {
      series := PlotEachX(KdeCall, xs);
    } else if graphType == RegressionPlot {
      series := PlotEachPair(RegCall, xs, ys);
    } else if graphType == PieChart {
      if |ys| == 1 {
        pie := Some(ValueCounts(frame[ys[0]].cells));
      }
    }
    drawing := Drawn(Figure(series, pie, Title(graphType, xs, ys), Join(" & ", xs), Join(" & ", ys)));
  }
}
