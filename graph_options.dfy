/**
 * The chart-availability rule of the Qt front-end (`update_graph_options`):
 * which plot names are offered for the selected X and Y columns.
 */
module GraphOptions {
  import opened Table

  const LinePlot := "Line Plot"
  const BarChart := "Bar Chart"
  const ScatterPlot := "Scatter Plot"
  const Histogram := "Histogram"
  const AreaPlot := "Area Plot"
  const RegressionPlot := "Regression Plot"
  const PieChart := "Pie Chart"
  /** Offered by the Tk front-end's fixed menu only; the Qt rule never adds it. */
  const HeatMap := "Heat Map"

  /** What a numeric column adds. */
  const NumericPlots: set<string> :=
    {LinePlot, BarChart, ScatterPlot, Histogram, AreaPlot, RegressionPlot}

  /** What a categorical or object column adds. */
  const CategoricalPlots: set<string> := {BarChart, PieChart}

  /** Every name the rule can ever offer. */
  const OfferableNames: set<string> := NumericPlots + CategoricalPlots

  /** One column's contribution: the numeric branch, the categorical/object
      branch, or nothing, since the `elif` has no `else`. */
  function Contribution(k: Kind): set<string>
  {
    match k
    case Numeric => NumericPlots
    case Categorical => CategoricalPlots
    case Other => {}
  }

  /** The offered set: empty unless both selections are non-empty, otherwise
      the union of the contributions of every selected column. */
  function Offered(frame: Frame, xs: seq<string>, ys: seq<string>): (r: set<string>)
    requires Selectable(frame, xs, ys)
    ensures r <= OfferableNames
    ensures HeatMap !in r
  {
    if xs == [] || ys == [] then {}
    else set c, g | c in xs + ys && g in Contribution(frame[c].kind) :: g
  }

  /** The set of kinds among the selected columns. */
  function SelectedKinds(frame: Frame, xs: seq<string>, ys: seq<string>): set<Kind>
    requires Selectable(frame, xs, ys)
  {
    set c | c in xs + ys :: frame[c].kind
  }

  /** The union that a set of kinds contributes. */
  function KindsContribution(ks: set<Kind>): set<string>
  {
    (if Numeric in ks then NumericPlots else {}) +
    (if Categorical in ks then CategoricalPlots else {})
  }

  /** `update_graph_options`: the set built by adding names column by column,
      first over the X selection, then over the Y selection. */
  method AvailableGraphs(frame: Frame, xs: seq<string>, ys: seq<string>)
    returns (available: set<string>)
    requires Selectable(frame, xs, ys)
    ensures available == Offered(frame, xs, ys)
    ensures xs == [] || ys == [] ==> available == {}
  {
    available := {};
    if xs != [] && ys != [] {
      for i := 0 to |xs|
        invariant forall g :: g in available <==>
          exists c :: c in xs[..i] && g in Contribution(frame[c].kind)
      {
        assert xs[..i + 1] == xs[..i] + [xs[i]];
        var kind := frame[xs[i]].kind;
        if kind == Numeric {
          available := available + {LinePlot, BarChart, ScatterPlot, Histogram, AreaPlot, RegressionPlot};
        } else if kind == Categorical {
          available := available + {BarChart, PieChart};
        }
      }
      assert xs[..|xs|] == xs;
      for j := 0 to |ys|
        invariant forall g :: g in available <==>
          exists c :: (c in xs || c in ys[..j]) && g in Contribution(frame[c].kind)
      {
        assert ys[..j + 1] == ys[..j] + [ys[j]];
        var kind := frame[ys[j]].kind;
        if kind == Numeric {
          available := available + {LinePlot, BarChart, ScatterPlot, Histogram, AreaPlot, RegressionPlot};
        } else if kind == Categorical {
          available := available + {BarChart, PieChart};
        }
      }
      assert ys[..|ys|] == ys;
    }
  }

  /** A chart name is offered exactly when both selections are non-empty and
      some selected column contributes it. */
  lemma OfferedMember(frame: Frame, xs: seq<string>, ys: seq<string>, g: string)
    requires Selectable(frame, xs, ys)
    ensures g in Offered(frame, xs, ys) <==>
      xs != [] && ys != [] && exists c :: (c in xs || c in ys) && g in Contribution(frame[c].kind)
  {
  }

  /** The offered set depends only on which kinds are selected. */
  lemma {:induction false} OfferedByKinds(frame: Frame, xs: seq<string>, ys: seq<string>)
    requires Selectable(frame, xs, ys)
    requires xs != [] && ys != []
    ensures Offered(frame, xs, ys) == KindsContribution(SelectedKinds(frame, xs, ys))
  {
    var ks := SelectedKinds(frame, xs, ys);
    forall g ensures g in Offered(frame, xs, ys) <==> g in KindsContribution(ks) {
      if g in KindsContribution(ks) {
        var k :| k in ks && g in Contribution(k);
        var c :| (c in xs || c in ys) && frame[c].kind == k;
        assert g in Contribution(frame[c].kind);
      }
    }
  }

  /** Any selected numeric column makes all six numeric plots available. */
  lemma NumericOffersSix(frame: Frame, xs: seq<string>, ys: seq<string>, c: string)
    requires Selectable(frame, xs, ys)
    requires xs != [] && ys != []
    requires c in xs || c in ys
    requires frame[c].kind == Numeric
    ensures NumericPlots <= Offered(frame, xs, ys)
  {
    forall g | g in NumericPlots ensures g in Offered(frame, xs, ys) {
      assert g in Contribution(frame[c].kind);
    }
  }

  /** "Pie Chart" is offered exactly when both selections are non-empty and
      some selected column is categorical or object. */
  lemma PieOfferedIff(frame: Frame, xs: seq<string>, ys: seq<string>)
    requires Selectable(frame, xs, ys)
    ensures PieChart in Offered(frame, xs, ys) <==>
      xs != [] && ys != [] && exists c :: (c in xs || c in ys) && frame[c].kind == Categorical
  {
    if PieChart in Offered(frame, xs, ys) {
      var c :| (c in xs || c in ys) && PieChart in Contribution(frame[c].kind);
      assert frame[c].kind == Categorical;
    }
    if xs != [] && ys != [] && exists c :: (c in xs || c in ys) && frame[c].kind == Categorical {
      var c :| (c in xs || c in ys) && frame[c].kind == Categorical;
      assert PieChart in Contribution(frame[c].kind);
    }
  }

  /** Reordering or duplicating the selected columns changes nothing: only the
      set of selected columns and the non-emptiness of both lists matter. */
  lemma {:induction false} OfferedIgnoresOrder(frame: Frame, xs: seq<string>, ys: seq<string>,
                                               xs': seq<string>, ys': seq<string>)
    requires Selectable(frame, xs, ys) && Selectable(frame, xs', ys')
    requires (xs == [] || ys == []) <==> (xs' == [] || ys' == [])
    requires forall c :: (c in xs || c in ys) <==> (c in xs' || c in ys')
    ensures Offered(frame, xs, ys) == Offered(frame, xs', ys')
  {
    if xs != [] && ys != [] {
      OfferedByKinds(frame, xs, ys);
      OfferedByKinds(frame, xs', ys');
      assert SelectedKinds(frame, xs, ys) == SelectedKinds(frame, xs', ys');
    }
  }

  /** Selecting more columns never removes an option. */
  lemma {:induction false} OfferedMonotone(frame: Frame, xs: seq<string>, ys: seq<string>,
                                           xs': seq<string>, ys': seq<string>)
    requires Selectable(frame, xs, ys) && Selectable(frame, xs', ys')
    requires forall c :: c in xs ==> c in xs'
    requires forall c :: c in ys ==> c in ys'
    ensures Offered(frame, xs, ys) <= Offered(frame, xs', ys')
  {
    if xs != [] && ys != [] {
      assert xs[0] in xs' && ys[0] in ys';
      OfferedByKinds(frame, xs, ys);
      OfferedByKinds(frame, xs', ys');
      assert SelectedKinds(frame, xs, ys) <= SelectedKinds(frame, xs', ys');
    }
  }

  /** Exchanging the X and Y selections offers the same charts. */
  lemma OfferedSymmetric(frame: Frame, xs: seq<string>, ys: seq<string>)
    requires Selectable(frame, xs, ys)
    ensures Offered(frame, xs, ys) == Offered(frame, ys, xs)
  {
    OfferedIgnoresOrder(frame, xs, ys, ys, xs);
  }
}
