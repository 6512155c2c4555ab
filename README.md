# Coffee sales dashboard: data-selection layer

This project models the deterministic data layer under a single-page Dash
dashboard for a coffee retailer. Three product lines (Espresso, Latte and
Cappuccino, in that declared order) each have twelve yearly unit counts for
2014–2025. The layer covers:

- the aggregates the page shows: per-year totals, per-category totals, the
  yearly average, the top product and the top year;
- the long ("melted") sales and price tables that the charts plot;
- `filter_data`, which every view uses to select its rows and key figures
  for the active coffee filter;
- the rule that decides which categories a per-filter chart or table
  includes: the prediction figure, the price-optimisation rows and the
  period-sales columns;
- the 16-year prediction series, and how they are split into a history
  trace and a forecast trace;
- the callbacks that move the view and filter stores from one value to the
  next, and the one-hot highlight flags derived from those stores.

Modules, one per concern:

- `Sales` (`sales.dfy`): categories, the wide sales table, sums, `Total`,
  `total_by_coffee`, `np.argmax`, the top product and top year, and
  truncating integer division.
- `LongTable` (`long_table.dfy`): `pd.melt`, boolean-mask row selection,
  the `Price` suffix stripping, and the sales and price long tables.
- `Filtering` (`filtering.dfy`): `filter_data`, the trends-view price
  selection, the category-inclusion rule, and the price-row and
  period-column builders.
- `Predictions` (`predictions.dfy`): prediction years and series, the
  display slices, and the figure with its traces.
- `Navigation` (`navigation.dfy`): the callbacks, the session state and its
  invariant.

Filter and view values are strings, as in the dcc.Store components. This
means an unrecognised stored value can be expressed, and the model can say
what each function does with it.

Sales are unbounded integers. They are not assumed non-negative, because the
source does not clamp them. Python's `int(mean)` truncates toward zero, and
`TruncDiv` models this explicitly for negative totals.

## Model

| member | source | states |
|---|---|---|
| `Sales.Range` | app.py:11 | `range(lo, hi)` has hi − lo elements; element i is lo + i; membership is exactly lo ≤ x < hi |
| `Sales.Years` | app.py:11 | the year axis has 12 entries; entry i is 2014 + i |
| `Sales.Index` | app.py:12 | each category has a position in the declared order `[Espresso, Latte, Cappuccino]`, and that position holds the category |
| `Sales.NameInjective` | app.py:12 | category labels are distinct; each is a category name and none is `all` |
| `Sales.AddSeries` | app.py:35 | the element-wise sum has the same length; each entry is the sum of the three entries at that year |
| `Sales.Totals` | app.py:35 | `Total` has 12 entries; `Total[i] = Espresso[i] + Latte[i] + Cappuccino[i]` |
| `Sales.SumAddSeries` | app.py:35 | summing the element-wise total equals adding the three column sums |
| `Sales.CategoryTotals` | app.py:47-49 | the list given to argmax holds each category's column sum, in declared order |
| `Sales.TotalByCoffeeIsGrandTotal` | app.py:40-43 | `total_by_coffee` has one slice per category, with that label and that column sum; the slices add up to the sum of `Total` |
| `Sales.ArgMax` | app.py:45 | `np.argmax` returns an in-range index of a maximal value; every earlier index holds a strictly smaller value, so ties go to the first maximum |
| `Sales.TopProduct` | app.py:47-49 | `top_product`'s total is ≥ every category's total and > that of every category declared before it |
| `Sales.TopYear` | app.py:45-46 | `top_year` is in 2014..2025; its `Total` is ≥ every year's and > every earlier year's |
| `Sales.TruncDiv` | app.py:1046 | `int(x / n)` truncates toward zero: for x ≥ 0, q·n ≤ x < q·n + n; for x < 0, q·n − n < x ≤ q·n |
| `LongTable.Melt` | app.py:51-57 | a melt of c columns over n years has c·n rows |
| `LongTable.MeltAt` | app.py:51-57 | row k·n + j of a melt is (year j, name of column k, value j of column k) |
| `LongTable.SelectType` | app.py:1052 | the boolean-mask selection keeps only rows of that type, and every such row, and never adds rows |
| `LongTable.SelectConcat` | app.py:1052 | the selection distributes over concatenation, so row order is preserved |
| `LongTable.SelectBlock` | app.py:1052 | one melted column is kept whole when its name is the selected type, and dropped otherwise |
| `LongTable.SelectThreeBlocks` | app.py:1052 | selecting from three stacked melted columns keeps, in order, exactly the columns whose name is the selected type |
| `LongTable.SalesLongAt` | app.py:51-57 | `sales_long` has 3 × 12 = 36 rows; row k·12 + j is (2014 + j, category k, its year-j sales) |
| `LongTable.SalesLongBlocks` | app.py:51-57 | `sales_long` is the Espresso block, then the Latte block, then the Cappuccino block |
| `LongTable.SalesLongTypes` | app.py:51-57 | every row of `sales_long` carries one of the three category names |
| `LongTable.SelectCategory` | app.py:1052 | selecting a category from `sales_long` yields exactly that category's 12 rows, in chronological order |
| `LongTable.RemoveAll` | app.py:66 | `str.replace(p, '')` never lengthens the string |
| `LongTable.RemoveAllSuffix` | app.py:66 | removing p from s + p returns s when s lacks p's first letter |
| `LongTable.StripPriceName` | app.py:66 | stripping `Price` from `EspressoPrice`, `LattePrice` and `CappuccinoPrice` gives the category name |
| `LongTable.StripPrice` | app.py:66 | the label rewrite keeps row count, years and values, and rewrites only the label |
| `LongTable.PriceLongAt` | app.py:59-66 | `price_long` has the same 36-row, category-major layout, with plain category labels |
| `LongTable.PriceLabelsMatchSales` | app.py:51-66 | after stripping, each price row has the same year and label as the sales row at the same position |
| `LongTable.PriceLongBlocks` | app.py:59-66 | `price_long` is three per-category blocks in declared order |
| `LongTable.PriceLongTypes` | app.py:59-66 | every row of the stripped `price_long` carries one of the three category names |
| `Filtering.CategoryOf` | app.py:1051-1074 | a category-name filter value names the category with that label |
| `Filtering.FilterData` | app.py:1041-1093 | every selected row comes from `sales_long`; the reported top coffee is always a category name |
| `Filtering.FilterCategory` | app.py:1051-1074 | for a category, `filter_data` gives: its 12 rows in order; its column sum; that sum over 12 truncated toward zero; itself as top coffee; a one-slice pie (category, total) |
| `Filtering.FilterAll` | app.py:1043-1050 | for `all`, `filter_data` gives all 36 rows, the grand total (the sum of the three column sums), that total over 12 truncated toward zero, `top_product`, and `total_by_coffee` as the pie |
| `Filtering.FilterDefaultIsAll` | app.py:1075-1083 | any filter value that is not a category name gives exactly the same result as `all` |
| `Filtering.FilterPieMatchesTotal` | app.py:1041-1093 | for every filter, the pie slices add up to the reported total sales |
| `Filtering.PriceSelection` | app.py:1364-1367 | the trends-view price rows are always rows of `price_long` |
| `Filtering.PriceSelectionUnrecognised` | app.py:1364-1367 | unlike `filter_data`, the price filter keeps no rows for a value that is neither `all` nor a category name |
| `Filtering.PriceSelectionCategory` | app.py:1366-1367 | for a category name, the price filter keeps exactly that category's 12 price rows, in chronological order |
| `Filtering.IncludedCategories` | app.py:1392-1397 | the inclusion rule gives all three categories in order for `all`, only the named category for a category name, and none otherwise |
| `Filtering.BuildPriceRows` | app.py:1721-1751 | the conditional appends build one price-optimisation row per included category, in declared order |
| `Filtering.BuildPeriodColumns` | app.py:1388-1397 | the period table has `Period` and then one column per included category, in declared order |
| `Filtering.ValueVars` | app.py:1402 | the melt's value columns are exactly the table's columns other than `Period` |
| `Filtering.PeriodValueVars` | app.py:1399-1405 | the period chart melts exactly the included categories, in declared order |
| `Predictions.PredictionYearsContiguous` | app.py:68-69 | `prediction_years` has 16 contiguous years, 2014..2029 |
| `Predictions.AsReals` | app.py:77-79 | history values keep their count and values when listed with the float forecasts |
| `Predictions.PredictionSeriesLayout` | app.py:77-79 | a prediction series has 12 + 4 = 16 values; its first 12 equal the history; the rest are the forecast |
| `Predictions.PredictionTracesFromSales` | app.py:77-79 | the series built from the sales table and four-value forecasts have 16 values; each category's solid trace plots its 12 sales over 2014..2025; its dotted trace plots the 2025 sale and then the forecast over 2025..2029 |
| `Predictions.SplitYears` | app.py:68-69 | `prediction_years[:12]` is 2014..2025 and `prediction_years[11:]` is 2025..2029 |
| `Predictions.SlicesCoverAndOverlap` | app.py:1577-1589 | on 16 values, `[:12]` and `[11:]` cover every index and overlap in exactly index 11; the forecast segment starts at the last historical point |
| `Predictions.TracesFor` | app.py:1575-1622 | each included category contributes two traces, and every trace has as many years as values |
| `Predictions.TracesForAppend` | app.py:1575-1622 | adding a category at the end adds its two traces at the end |
| `Predictions.PredictionTracesShape` | app.py:1575-1622 | every trace has as many years as values; `all` gives 6 traces; a category name gives its 2 traces; an unrecognised value gives none |
| `Predictions.Figure.AddTrace` | app.py:1576 | `add_trace` appends the trace to the figure |
| `Predictions.BuildPredictionFigure` | app.py:1573-1622 | the figure built by the conditional `add_trace` calls holds exactly the traces of the included categories, in order |
| `Predictions.AddCategoryTraces` | app.py:1575-1589 | one category's block appends its solid history trace over `[:12]` and then its dotted forecast trace over `[11:]` |
| `Navigation.Render` | app.py:2096-2104 | stored views `trends` and `predictions` render their own view; anything else renders the overview, always for the given filter |
| `Navigation.NavActive` | app.py:2016-2021 | exactly one navigation link is highlighted when the stored view is recognised, and it is that view's link; none is highlighted otherwise |
| `Navigation.FilterActiveOneHot` | app.py:2030-2036 | each filter flag is true exactly when the stored filter is that button's value; exactly one is true iff the filter is recognised; none is true otherwise |
| `Navigation.UpdateCoffeeFilter` | app.py:2072-2088 | a recognised filter stays recognised; the result is either the old filter or a recognised value |
| `Navigation.CoffeeFilterTransitions` | app.py:2072-2088 | no trigger or an unknown id keeps the filter; each filter button stores its own value; repeating a click is idempotent |
| `Navigation.UpdateView` | app.py:2048-2062 | the stored view is always recognised; `trends`/`predictions` exactly when their link fired, otherwise `dashboard`; the content renders that view; the header matches it |
| `Navigation.UpdateViewOnFilterChange` | app.py:2096-2104 | the re-render shows the stored view with the new filter; any unrecognised stored view shows the overview |
| `Navigation.StepPreservesConsistent` | app.py:2048-2104 | one click keeps both stores recognised and the page showing the stored view for the stored filter |
| `Navigation.RunPreservesConsistent` | app.py:2048-2104 | any sequence of clicks keeps that invariant |
| `Navigation.ReachableConsistent` | app.py:1011-1013 | from the initial stores (`dashboard`, `all`), every reachable page is consistent |

## Left out

- Synthetic data generation (app.py:10-23): NumPy's seeded random draws, the sine seasonal shape and the linear growth trend are floating-point and random. The three sales series are inputs of the model (`SalesData`), and so are the three price series (`PriceData`).
- The AR(1) forecast (app.py:71-75) is a statsmodels fit in floating point. The four forecast values are an input sequence. The only thing assumed of them is their count, 4, which `PredictionSeriesLayout` requires.
- Prices and revenue (app.py:21-23, app.py:36-38, and the `total_revenue` entries of `filter_data`) are float64 products and sums with rounding. `Selection` has no revenue field. Price values appear only as opaque `real` values in the price table.
- The `heatmap_colors` entry of `filter_data`, and all colours, layout, figure styling, CSS, inline JavaScript and `app.run_server`, are presentation only.
- The hard-coded display numbers are literals that involve no computation: correlation points, period sales values, growth figures, recommendation texts, and the strings in the price-optimisation rows. For each builder, the model keeps only which categories it includes (the product name, or the column name).
- `dash.callback_context`: the trigger is an `Option` of the firing component's id. The `prop_id.split('.')` parsing and the click counters are not modelled.
- Chained callbacks: `Navigation.Step` runs `update_view_on_filter_change` immediately after every filter-store write. The model does not capture how Dash schedules callbacks, or `prevent_initial_call`.
- Sales.TruncDiv: the source computes the mean in float64 before truncating. The model uses exact rational division, so the two can differ only for totals beyond float64's exact integer range.
- Sales.Sum: pandas int64 sums wrap around on overflow. The model's integers are unbounded, because the synthetic values are far below 2^63.
- Predictions.BuildPredictionFigure: a figure is reduced to its list of traces (name, x, y, dotted or solid). Line colour, width and mode are not modelled.
