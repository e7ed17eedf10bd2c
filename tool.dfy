/**
 * The Qt front-end's main window (`ExcelToGraphConverter` in tool.py): the
 * loaded frame, the X and Y selections, the graph-type options offered for
 * them, and the light/dark theme with its toggle button's text.
 */
module Tool {
  import opened Table
  import opened GraphOptions
  import opened GraphWindow

  const DarkModeButtonText := "Switch to Dark Mode"
  const LightModeButtonText := "Switch to Light Mode"
  const NoGraphTypeWarning := "Please select a graph type."
  const NoColumnsWarning := "Please select at least one X and one Y column."

  /** The theme button offers the other theme. */
  function ThemeButtonText(darkMode: bool): string
  {
    if darkMode then LightModeButtonText else DarkModeButtonText
  }

  /** What pressing "Generate Graph" leads to: a "Selection Error" warning,
      or a graph window showing the drawing. */
  datatype GenerateResult = SelectionWarning(message: string) | WindowShown(drawing: Drawing, darkMode: bool)

  class ExcelToGraphConverter {
    /** The loaded dataset; empty before any file is loaded. */
    var frame: Frame
    var xSelection: seq<string>
    var ySelection: seq<string>
    /** The graph-type combo box's items. */
    var graphOptions: set<string>
    var darkMode: bool
    var themeButtonText: string

    /** The selections come from the loaded frame, the offered graph types are
        those of the availability rule for them, and the theme button names
        the other theme. */
    ghost predicate Valid()
      reads this
    {
      Selectable(frame, xSelection, ySelection) &&
      graphOptions == Offered(frame, xSelection, ySelection) &&
      themeButtonText == ThemeButtonText(darkMode)
    }

    /** A fresh window: nothing loaded, light theme (`apply_initial_theme`). */
    constructor ()
      ensures Valid()
      ensures frame == map[] && xSelection == [] && ySelection == [] && graphOptions == {}
      ensures !darkMode && themeButtonText == DarkModeButtonText
    {
      frame := map[];
      xSelection, ySelection := [], [];
      graphOptions := {};
      darkMode := false;
      themeButtonText := DarkModeButtonText;
    }

    /** `set_dark_mode`: only the button text is modelled; `dark_mode` itself
        is not changed here. */
    method SetDarkMode()
      modifies this`themeButtonText
      ensures themeButtonText == LightModeButtonText
    {
      themeButtonText := LightModeButtonText;
    }

    /** `set_light_mode`. */
    method SetLightMode()
      modifies this`themeButtonText
      ensures themeButtonText == DarkModeButtonText
    {
      themeButtonText := DarkModeButtonText;
    }

    /** `toggle_theme`: apply the other theme, then flip `dark_mode`. */
    method ToggleTheme()
      requires Valid()
      modifies this`themeButtonText, this`darkMode
      ensures Valid()
      ensures darkMode == !old(darkMode)
      ensures themeButtonText == (if old(darkMode) then DarkModeButtonText else LightModeButtonText)
    {
      if darkMode {
        SetLightMode();
      } else {
        SetDarkMode();
      }
      darkMode := !darkMode;
    }

    /** `load_data` followed by `display_data`: an empty path (the dialog was
        cancelled) changes nothing; otherwise the parsed table replaces the
        frame and the selection lists and the graph options are cleared. */
    method LoadData(path: string, parsed: Frame)
      requires Valid()
      modifies this`frame, this`xSelection, this`ySelection, this`graphOptions
      ensures Valid()
      ensures path == "" ==> frame == old(frame) && xSelection == old(xSelection) &&
                             ySelection == old(ySelection) && graphOptions == old(graphOptions)
      ensures path != "" ==> frame == parsed && xSelection == [] && ySelection == [] && graphOptions == {}
    {
      if path != "" {
        frame := parsed;
        xSelection, ySelection := [], [];
        graphOptions := {};
      }
    }

    /** `update_graph_options`: recompute the offered graph types. */
    method UpdateGraphOptions()
      requires Selectable(frame, xSelection, ySelection)
      requires themeButtonText == ThemeButtonText(darkMode)
      modifies this`graphOptions
      ensures Valid()
      ensures graphOptions == Offered(frame, xSelection, ySelection)
    {
      graphOptions := AvailableGraphs(frame, xSelection, ySelection);
    }

    /** A change of the selected items; the list widgets fire
        `update_graph_options` on every change. */
    method SelectColumns(xs: seq<string>, ys: seq<string>)
      requires Valid()
      requires Selectable(frame, xs, ys)
      modifies this`xSelection, this`ySelection, this`graphOptions
      ensures Valid()
      ensures xSelection == xs && ySelection == ys
      ensures graphOptions == Offered(frame, xs, ys)
    {
      xSelection, ySelection := xs, ys;
      UpdateGraphOptions();
    }

    /** `show_graph_window` with the combo box showing `graphType`: one of its
        items, or "" when it has none. Warn when no graph type or no X or no Y
        column is selected, otherwise open the graph window; so a window only
        ever shows an offered type, never "Heat Map". */
    method ShowGraphWindow(graphType: string) returns (result: GenerateResult)
      requires Valid()
      requires graphType == "" || graphType in graphOptions
      ensures graphType == "" ==> result == SelectionWarning(NoGraphTypeWarning)
      ensures graphType != "" && (xSelection == [] || ySelection == []) ==>
        result == SelectionWarning(NoColumnsWarning)
      ensures result.WindowShown? <==> graphType != "" && xSelection != [] && ySelection != []
      ensures result.WindowShown? ==>
        result.drawing == Plan(graphType, xSelection, ySelection, frame) &&
        result.drawing.Drawn? && result.darkMode == darkMode &&
        graphType in OfferableNames && graphType != HeatMap
    {
      if graphType == "" {
        return SelectionWarning(NoGraphTypeWarning);
      }
      if xSelection == [] || ySelection == [] {
        return SelectionWarning(NoColumnsWarning);
      }
      var drawing := GenerateGraph(graphType, xSelection, ySelection, frame);
      result := WindowShown(drawing, darkMode);
    }
  }

  /** Toggling the theme twice restores `dark_mode` and the button text, and
      leaves the data and the selections alone. */
  method ToggleThemeTwice(w: ExcelToGraphConverter)
    requires w.Valid()
    modifies w
    ensures w.Valid()
    ensures w.darkMode == old(w.darkMode) && w.themeButtonText == old(w.themeButtonText)
    ensures w.frame == old(w.frame) && w.xSelection == old(w.xSelection) &&
            w.ySelection == old(w.ySelection) && w.graphOptions == old(w.graphOptions)
  {
    w.ToggleTheme();
    w.ToggleTheme();
  }

  /** The column warning of `show_graph_window` cannot be reached: the combo
      box holds the offered types, which are none when a selection is empty,
      so its current text is then "" and the graph-type warning comes first. */
  lemma ColumnWarningUnreachable(frame: Frame, xs: seq<string>, ys: seq<string>, graphType: string)
    requires Selectable(frame, xs, ys)
    requires graphType == "" || graphType in Offered(frame, xs, ys)
    requires xs == [] || ys == []
    ensures graphType == ""
  {
  }
}
