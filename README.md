# Data Visualization Tool — a Dafny model of its decision logic

The repository has two desktop front-ends that load a CSV file and plot it:
a Qt window (`tool.py`) with multi-column X/Y selection and a light/dark
theme, and an older Tk window (`legacy_tool.py`) with fixed menus. Almost all
of both is widget wiring and library calls. This project models the parts of
them that decide something, as plain Dafny over an abstract table. The table
is a map from column name to the column's inferred kind (`Numeric`,
`Categorical` for a categorical or object dtype, or `Other`) and its cells.

- `table.dfy` (`Table`): the abstract table, and pandas' `value_counts` as
  frequency counts of the present values.
- `text.dfy` (`Text`): Python's `str.join`, used for the title and the axis labels.
- `graph_options.dfy` (`GraphOptions`): the chart-availability rule of
  `update_graph_options`. It is a loop-and-`add` method proved equal to a set
  comprehension. Lemmas state the rule's union, monotonicity, symmetry and
  membership facts.
- `graph_window.dfy` (`GraphWindow`): `generate_graph`. Each seaborn call is a
  `Series` record: routine, x column, optional y column, legend label. A
  drawing is the series in call order, the pie slices, the title and the two
  axis labels. The loops are methods proved against closed-form definitions.
- `tool.dfy` (`Tool`): the Qt main window as a class. Its fields are the
  loaded frame, the selections, the offered options, `dark_mode` and the
  theme button's text. Its methods are `load_data`, `update_graph_options`,
  the `show_graph_window` guard and the theme toggle. `Valid()` keeps the
  offered options equal to the rule's result for the current selection, and
  the button text in step with `dark_mode`.
- `legacy_tool.dfy` (`LegacyTool`): the Tk window as a class over its string
  variables. It covers the fixed graph-type menu, the column menu `show_data`
  builds with its early `break`, and `generate_graph`: its early return, the
  exceptions its drawing branches raise, and its axis labels.

The model follows the code:
- In `tool.py` a pie with zero or several Y columns draws nothing and raises nothing.
- `tool.py` never offers or draws "Heat Map".
- A column that is neither numeric nor categorical/object contributes nothing.
- The title joins with `' and '` and the labels with `' & '`, spaces included.
- In `tool.py` the column warning of `show_graph_window` cannot be reached: an
  empty selection offers no graph type, so the combo box is empty and the
  graph-type warning is shown first.
- In `legacy_tool.py` every drawing branch indexes the column named by the
  dataset variable unless it is "All"; that variable is "" until a column is
  picked, so plotting right after choosing a file and a plot type raises a
  `KeyError`. The pie branch always raises, because `plt.pie` takes no `ax`
  argument.

Input and output are parameters:
- The file dialog's answer is a string argument, "" when cancelled.
- The parsed CSV is a `Frame` argument in `tool.py`.
- In `legacy_tool.py` the parsed CSV is an `Option` of the header names; `None` means `read_csv` raised.
- The Qt combo box's current text is an argument: one of its items, or "" when it is empty.

## Model

| member | source | states |
|---|---|---|
| `Table.ValueCounts` | tool.py:60 | a value is a key exactly when some cell holds it; its count is its number of occurrences, and is positive; missing cells are not counted |
| `Text.Join` | tool.py:63-65 | the joined text is as long as all parts together plus one separator between each pair of neighbours |
| `Text.JoinAppend` | tool.py:63-65 | joining one more part appends the separator and that part |
| `Text.JoinConcat` | tool.py:63-65 | joining two non-empty lists is the two joins with one separator between them |
| `GraphOptions.Offered` | tool.py:184-209 | the offered set only ever holds the seven names of the numeric and categorical branches; "Heat Map" is never in it |
| `GraphOptions.AvailableGraphs` | tool.py:180-212 | the set built by adding names over the X columns, then the Y columns, equals the rule; it is empty when either selection is empty |
| `GraphOptions.OfferedMember` | tool.py:186-209 | a name is offered iff both selections are non-empty and some selected X or Y column contributes it |
| `GraphOptions.OfferedByKinds` | tool.py:187-209 | with both selections non-empty, the offered set is determined by the set of selected kinds: six numeric plots if a numeric column is selected, Bar and Pie if a categorical/object one is |
| `GraphOptions.NumericOffersSix` | tool.py:186-206 | any selected numeric column, X or Y, makes Line, Bar, Scatter, Histogram, Area and Regression available |
| `GraphOptions.PieOfferedIff` | tool.py:186-209 | "Pie Chart" is offered iff both selections are non-empty and at least one selected column is categorical or object |
| `GraphOptions.OfferedIgnoresOrder` | tool.py:187-209 | reordering or duplicating selected columns changes nothing, as long as which lists are empty stays the same |
| `GraphOptions.OfferedMonotone` | tool.py:187-209 | selecting more X or Y columns never removes an option |
| `GraphOptions.OfferedSymmetric` | tool.py:187-209 | the X and Y loops are alike: exchanging the two selections offers the same set |
| `GraphWindow.PairsLength` | tool.py:44-57 | the Scatter/Regression loops make |Y|·|X| series |
| `GraphWindow.PairsAt` | tool.py:44-57 | the series at position i·|X|+j pairs the i-th Y column with the j-th X column, labelled "<y> vs <x>" (Y outer, X inner) |
| `GraphWindow.PlotEachY` | tool.py:38-43 | the Line/Bar loop emits one series per Y column, in Y order, against the first X column, labelled with the Y name |
| `GraphWindow.PlotEachX` | tool.py:48-53 | the Histogram/Area loop emits one series per X column, in X order, with no y column, labelled with the X name |
| `GraphWindow.PlotEachPair` | tool.py:44-57 | the nested Scatter/Regression loops emit exactly the Y-outer, X-inner sequence of pairs |
| `GraphWindow.GenerateGraph` | tool.py:26-70 | the drawing equals the plan: the series of the chosen type, the pie slices, the title and both axis labels, or the caught plotting error |
| `GraphWindow.PlanFailsIff` | tool.py:37-43 | the one modelled error is Line or Bar with no X column but some Y column, where indexing the first X column raises and the warning is shown; seaborn's own exceptions are not modelled |
| `GraphWindow.PlanPerYSeries` | tool.py:38-43 | Line and Bar draw one series per Y column, in Y order, each against the first X column and labelled with the Y name |
| `GraphWindow.PlanPerXSeries` | tool.py:48-53 | Histogram and Area draw one series per X column and ignore the Y selection |
| `GraphWindow.PlanPairSeries` | tool.py:44-57 | Scatter and Regression draw |Y|·|X| series, Y outer and X inner, each labelled "<y> vs <x>" |
| `GraphWindow.PlanNoSeries` | tool.py:58-65 | any name outside the six numeric plots, "Pie Chart" among them, draws no series, and the title is still set |
| `GraphWindow.PieRule` | tool.py:58-61 | a pie is drawn iff the type is "Pie Chart" and there is exactly one Y column; its slices are the value frequencies of that column |
| `GraphWindow.LabelsGrow` | tool.py:63-65 | one more Y column extends the title by `" and " + y` and the y-label by `" & " + y` |
| `GraphWindow.LabelsOfSingleColumns` | tool.py:63-65 | with one X and one Y column the title is `"<type> of <y> vs <x>"` and the labels are the two names |
| `Tool.ExcelToGraphConverter.constructor` | tool.py:130-138 | nothing loaded, no selection, no option, light mode, button reads "Switch to Dark Mode" |
| `Tool.ExcelToGraphConverter.SetDarkMode` | tool.py:140-145 | the button reads "Switch to Light Mode" |
| `Tool.ExcelToGraphConverter.SetLightMode` | tool.py:147-152 | the button reads "Switch to Dark Mode" |
| `Tool.ExcelToGraphConverter.ToggleTheme` | tool.py:230-235 | `dark_mode` flips and the button names the other theme, keeping the window invariant |
| `Tool.ToggleThemeTwice` | tool.py:230-235 | two toggles restore `dark_mode` and the button text and change nothing else |
| `Tool.ExcelToGraphConverter.LoadData` | tool.py:154-178 | a cancelled dialog changes nothing; otherwise the parsed table replaces the old one and the selections and options are cleared |
| `Tool.ExcelToGraphConverter.UpdateGraphOptions` | tool.py:180-212 | the combo box's items become exactly the rule's result for the current selection |
| `Tool.ExcelToGraphConverter.SelectColumns` | tool.py:102-113 | a selection change stores the selections and recomputes the options |
| `Tool.ExcelToGraphConverter.ShowGraphWindow` | tool.py:214-228 | no graph type gives the graph-type warning; otherwise an empty X or Y selection gives the column warning; otherwise the window shows the plan's drawing for an offered type that is never "Heat Map"; the modelled first-X-column index error cannot occur there |
| `Tool.ColumnWarningUnreachable` | tool.py:223-225 | with the combo box holding the offered types, an empty X or Y selection forces an empty graph type, so the column warning is never reached |
| `LegacyTool.NamesBeforeEmpty` | legacy_tool.py:99-102 | the middle of the menu is a prefix of the names in file order, holds no empty name, and stops only at the end or at an empty name |
| `LegacyTool.BuildColumnMenu` | legacy_tool.py:96-105 | the menu is "click->", then the names before the first empty one, then "All" |
| `LegacyTool.ColumnMenuShape` | legacy_tool.py:98-103 | the menu begins with "click->" and ends with "All", is 2 longer than the prefix, and no name at or after the first empty name is included |
| `LegacyTool.ExcelToGraphConverter.constructor` | legacy_tool.py:13-25 | no file path, an empty dataset variable, no column menu, and the graph type is the first entry of the fixed 9-entry menu, "Click->" |
| `LegacyTool.ExcelToGraphConverter.BrowseFile` | legacy_tool.py:33-35 | the dialog's answer becomes the file path |
| `LegacyTool.ExcelToGraphConverter.SelectGraphType` | legacy_tool.py:20-22 | picking an entry of the fixed menu sets the graph type to it |
| `LegacyTool.ExcelToGraphConverter.SelectDataset` | legacy_tool.py:105 | picking an entry of the column menu sets the dataset variable to it |
| `LegacyTool.ExcelToGraphConverter.ShowData` | legacy_tool.py:96-105 | a readable header rebuilds the column menu; a read that raises, as for an empty path, leaves it unchanged; the dataset variable is not set |
| `LegacyTool.ExcelToGraphConverter.GenerateGraph` | legacy_tool.py:37-94 | nothing happens without a file path or a graph type; a failed read raises; a drawing branch raises a `KeyError` unless the dataset variable is "All" or a column; the pie branch and a raising plotting call raise; fewer than two columns is an index error; only otherwise is the figure shown, titled with the graph type and labelled with the first and second column names |
| `LegacyTool.DefaultSessionRaises` | legacy_tool.py:25-53 | choosing a file and a plot type and pressing "Generate Graph" without picking a column raises a `KeyError`, because the dataset variable is still "" |

## Left out

- Widgets, layouts, stylesheets, colours, window geometry and message boxes. A selection warning is an outcome carrying its message text; the plotting-error warning is an outcome without the exception's text. That includes the face colour `generate_graph` picks from `dark_mode`: the model passes `dark_mode` through to the window but does not model the colour.
- File dialogs and `pd.read_csv`. The dialog's answer and the parsed table are arguments. In `tool.py` a read that raises is not modelled.
- pandas dtype inference. Each column carries its kind as given.
- The seaborn and matplotlib calls themselves: their rendering, any exception they raise, `ax.legend()` and `autopct` percentage formatting.
- The order of `value_counts`. Only the counts are modelled.
- Floating-point values. Numeric cells are exact reals.
- `display_data`'s table filling, which is widget writes of `str(...)` values. Only its clearing of the selections and the options is modelled, in `LoadData`.
- The legacy `generate_graph` branches for 'All' and for a single column are not modelled call by call. They are direct library calls, several with invalid arguments; the model keeps only which of them raise.
- Tool.ExcelToGraphConverter.ShowGraphWindow: a seaborn call raising inside the new window is not modelled. A regression over a text column is one case (tool.py:57, 69-70). Its `Drawn?` clause says only that the modelled first-X-column index error cannot occur.
- LegacyTool.ExcelToGraphConverter.GenerateGraph: whether the seaborn call of a non-pie branch raises is a parameter (`plotCallRaises`), not derived from the data. The pie branch always raises, and a missing column raises at the indexing; both are modelled.
- GraphWindow.GenerateGraph: an exception raised by a plotting call part-way through a loop, after some series are drawn and before the title is set, is not modelled. Only the first-X-column index error is.
- Tool.ExcelToGraphConverter.LoadData: `self.df = None` before the first load is modelled as the empty frame. The selection lists are empty until a load, so nothing observable differs.
- Header names in the legacy column menu are taken as given. Whether pandas ever yields an empty name (it names unnamed header cells itself) is a parser question and is not modelled.
