/**
 * The Tk front-end (`ExcelToGraphConverter` in legacy_tool.py): its state is
 * three string variables the callbacks set and read, a fixed graph-type menu,
 * and a column menu built from the file's header.
 */
module LegacyTool {
  import opened Wrappers

  /** The graph-type menu, in display order; its first entry is the initial
      selection. */
  const GraphTypeMenu: seq<string> :=
    ["Click->", "Line Plot", "Bar Chart", "Scatter Plot", "Histogram",
     "Area Plot", "Regression Plot", "Heat Map", "Pie Chart"]

  const ColumnMenuHead := "click->"
  const ColumnMenuAll := "All"

  /** The column names before the first empty name, in file order. */
  function NamesBeforeEmpty(names: seq<string>): (r: seq<string>)
    ensures |r| <= |names| && r == names[..|r|]
    ensures "" !in r
    ensures |r| == |names| || names[|r|] == ""
  {
    if names == [] || names[0] == "" then []
    else [names[0]] + NamesBeforeEmpty(names[1..])
  }

  /** The longest prefix without an empty name: a prefix that has no empty
      name and stops at the end or at an empty name is that one. */
  lemma NamesBeforeEmptyUnique(names: seq<string>, k: nat)
    requires k <= |names|
    requires "" !in names[..k]
    requires k == |names| || names[k] == ""
    ensures NamesBeforeEmpty(names) == names[..k]
  {
  }

  /** `show_data`'s loop: "click->", then the header names up to but
      excluding the first empty one, then "All". */
  method BuildColumnMenu(names: seq<string>) returns (menu: seq<string>)
    ensures menu == [ColumnMenuHead] + NamesBeforeEmpty(names) + [ColumnMenuAll]
  {
    menu := [ColumnMenuHead];
    var i := 0;
    while i < |names|
      invariant 0 <= i <= |names|
      invariant menu == [ColumnMenuHead] + names[..i]
      invariant "" !in names[..i]
    {
      if names[i] == "" {
        break;
      }
      assert names[..i + 1] == names[..i] + [names[i]];
      menu := menu + [names[i]];
      i := i + 1;
    }
    NamesBeforeEmptyUnique(names, i);
    menu := menu + [ColumnMenuAll];
  }

  /** The shape of the column menu: "click->" first, "All" last, and between
      them exactly the names before the first empty one, so that no name at or
      after an empty name is offered by position. */
  lemma ColumnMenuShape(names: seq<string>, menu: seq<string>)
    requires menu == [ColumnMenuHead] + NamesBeforeEmpty(names) + [ColumnMenuAll]
    ensures |menu| == 2 + |NamesBeforeEmpty(names)|
    ensures menu[0] == ColumnMenuHead && menu[|menu| - 1] == ColumnMenuAll
    ensures forall i :: 0 < i < |menu| - 1 ==> menu[i] == names[i - 1] && names[i - 1] != ""
    ensures forall i :: 0 <= i < |names| && names[i] == "" ==> |menu| <= i + 2
  {
    var r := NamesBeforeEmpty(names);
    forall i | 0 < i < |menu| - 1 ensures menu[i] == names[i - 1] && names[i - 1] != "" {
      assert menu[i] == r[i - 1];
    }
  }

  /** The figure the Tk front-end labels: the graph type as title, the first
      and second column names as axis labels. */
  datatype LegacyFigure = LegacyFigure(title: string, xLabel: string, yLabel: string)

  /** Which graph types have a drawing branch: every menu entry but "Click->". */
  predicate HasDrawingBranch(graphType: string)
  {
    graphType in GraphTypeMenu[1..]
  }

  /** A drawing branch can read the dataset variable: either "All" (the whole
      table is plotted) or the name of a column (that column is indexed). */
  predicate DatasetReadable(dataset: string, columns: seq<string>)
  {
    dataset == ColumnMenuAll || dataset in columns
  }

  /** What "Generate Graph" leads to: an early return; an exception from
      reading the file; a `KeyError` when a drawing branch indexes a column
      that does not exist; an exception from the branch's plotting call; an
      index error when labelling a table with fewer than two columns; or the
      labelled figure shown on the canvas. */
  datatype LegacyResult =
    | NothingDone
    | ReadFailed
    | ColumnKeyError
    | PlotCallRaised
    | LabelIndexError
    | FigureShown(figure: LegacyFigure)

  class ExcelToGraphConverter {
    var filePath: string
    var graphType: string
    /** The column chosen in the column menu; "" until one is picked. */
    var dataset: string
    /** The column menu; empty until "Show Data" builds it. */
    var columnMenu: seq<string>

    constructor ()
      ensures filePath == "" && dataset == ""
      ensures graphType == GraphTypeMenu[0] && graphType == "Click->"
      ensures columnMenu == []
    {
      filePath := "";
      graphType := GraphTypeMenu[0];
      dataset := "";
      columnMenu := [];
    }

    /** `browse_file`: the dialog's answer ("" when cancelled) is stored. */
    method BrowseFile(chosen: string)
      modifies this`filePath
      ensures filePath == chosen
    {
      filePath := chosen;
    }

    /** Picking an entry of the graph-type menu. */
    method SelectGraphType(choice: string)
      requires choice in GraphTypeMenu
      modifies this`graphType
      ensures graphType == choice
    {
      graphType := choice;
    }

    /** Picking an entry of the column menu. */
    method SelectDataset(choice: string)
      requires choice in columnMenu
      modifies this`dataset
      ensures dataset == choice
    {
      dataset := choice;
    }

    /** `show_data` given the header read from `filePath`, or None when
        reading raised (always so for an empty path), in which case the
        callback aborts and nothing changes. Building the menu does not set
        the dataset variable. */
    method ShowData(header: Option<seq<string>>)
      requires filePath == "" ==> header.None?
      modifies this`columnMenu
      ensures header.None? ==> columnMenu == old(columnMenu)
      ensures header.Some? ==>
        columnMenu == [ColumnMenuHead] + NamesBeforeEmpty(header.value) + [ColumnMenuAll]
    {
      if header.Some? {
        columnMenu := BuildColumnMenu(header.value);
      }
    }

    /** `generate_graph` given the header read from `filePath` (None when
        reading raised) and whether the seaborn call of the chosen branch
        raises (`plotCallRaises`, a foreign outcome). Nothing happens without a
        path or a graph type. A drawing branch first needs the dataset
        variable to be "All" or a column; the pie branch always raises, since
        `plt.pie` takes no `ax` argument. Only when no exception occurred is
        the figure titled with the graph type and labelled with the first two
        column names. */
    method GenerateGraph(header: Option<seq<string>>, plotCallRaises: bool) returns (result: LegacyResult)
      ensures filePath == "" || graphType == "" ==> result == NothingDone
      ensures filePath != "" && graphType != "" && header.None? ==> result == ReadFailed
      ensures (filePath != "" && graphType != "" && header.Some? && HasDrawingBranch(graphType) &&
               !DatasetReadable(dataset, header.value))
              ==> result == ColumnKeyError
      ensures (filePath != "" && graphType != "" && header.Some? && HasDrawingBranch(graphType) &&
               DatasetReadable(dataset, header.value) && (graphType == "Pie Chart" || plotCallRaises))
              ==> result == PlotCallRaised
      ensures (filePath != "" && graphType != "" && header.Some? &&
               (HasDrawingBranch(graphType) ==> DatasetReadable(dataset, header.value) &&
                                                graphType != "Pie Chart" && !plotCallRaises) &&
               |header.value| < 2)
              ==> result == LabelIndexError
      ensures result.FigureShown? <==>
        filePath != "" && graphType != "" && header.Some? &&
        (HasDrawingBranch(graphType) ==> DatasetReadable(dataset, header.value) &&
                                         graphType != "Pie Chart" && !plotCallRaises) &&
        |header.value| >= 2
      ensures result.FigureShown? ==>
        graphType != "Pie Chart" &&
        result.figure == LegacyFigure(graphType, header.value[0], header.value[1])
    {
      if filePath == "" || graphType == "" {
        return NothingDone;
      }
      if header.None? {
        return ReadFailed;
      }
      var columns := header.value;
      if HasDrawingBranch(graphType) {
        if dataset != ColumnMenuAll && dataset !in columns {
          return ColumnKeyError;
        }
        if graphType == "Pie Chart" || plotCallRaises {
          return PlotCallRaised;
        }
      }
      if |columns| < 2 {
        return LabelIndexError;
      }
      result := FigureShown(LegacyFigure(graphType, columns[0], columns[1]));
    }
  }

  /** The default session: a file is chosen, a plot type is picked and
      "Generate Graph" is pressed without picking a column. The dataset
      variable is still "", which names no column, so the drawing branch
      raises a `KeyError` and no figure is shown. */
  method DefaultSessionRaises(path: string, header: seq<string>, choice: string, plotCallRaises: bool)
    returns (result: LegacyResult)
    requires path != "" && "" !in header
    requires choice in GraphTypeMenu && choice != "Click->"
    ensures result == ColumnKeyError
  {
    var w := new ExcelToGraphConverter();
    w.BrowseFile(path);
    w.SelectGraphType(choice);
    result := w.GenerateGraph(Some(header), plotCallRaises);
  }
}
