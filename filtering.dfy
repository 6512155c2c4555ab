/**
 * The coffee-type filter as the views apply it: `filter_data`, which the
 * KPI cards and charts of every view read, the trends view's price
 * selection, and the rule that decides which categories a per-filter
 * chart or table includes.
 *
 * A filter value is the string held in the filter store; the buttons only
 * ever store `all` or a category name, but the functions here accept any
 * string, as the source does.
 */
module Filtering {
  import opened Sales
  import opened LongTable

  const AllFilter: string := "all"

  /** The filter values the buttons can store. */
  predicate Recognised(f: string) {
    f == AllFilter || f in CategoryNames
  }

  /** The category a filter value names, if any. */
  function CategoryOf(f: string): (r: Category)
    requires f in CategoryNames
    ensures Name(r) == f
  {
    if f == "Espresso" then Espresso else if f == "Latte" then Latte else Cappuccino
  }

  /** What `filter_data` returns, without revenue and heatmap colours. */
  datatype Selection = Selection(
    filteredSales: seq<Row<int>>,
    totalSales: int,
    yearlyAvg: int,
    topCoffee: string,
    pieData: seq<PieSlice>)

  /** The branch `filter_data` takes for one named category. */
  function CategorySelection(d: SalesData, c: Category): Selection
    requires d.Valid()
  {
    var total := Sum(d.Column(c));
    Selection(SelectType(SalesLong(d), Name(c)), total, YearlyAverage(d.Column(c)),
              Name(c), [PieSlice(Name(c), total)])
  }

  /**
   * `filter_data`: the rows, totals and top category for a filter value.
   * `all` and every unrecognised value take the whole-table branch.
   */
  function FilterData(d: SalesData, f: string): (r: Selection)
    requires d.Valid()
    ensures forall x :: x in r.filteredSales ==> x in SalesLong(d)
    ensures r.topCoffee in CategoryNames
  {
    if f == AllFilter then
      Selection(SalesLong(d), Sum(Totals(d)), YearlyAverage(Totals(d)),
                Name(TopProduct(d)), TotalByCoffee(d))
    else if f == "Espresso" then CategorySelection(d, Espresso)
    else if f == "Latte" then CategorySelection(d, Latte)
    else if f == "Cappuccino" then CategorySelection(d, Cappuccino)
    else
      // default branch, written out separately in the source
      Selection(SalesLong(d), Sum(Totals(d)), YearlyAverage(Totals(d)),
                Name(TopProduct(d)), TotalByCoffee(d))
  }

  /**
   * Filtering to one category: its 12 rows in chronological order, its
   * column sum, that sum over 12 truncated toward zero, the category itself
   * as top product, and a one-slice pie.
   */
  lemma {:induction false} FilterCategory(d: SalesData, c: Category)
    requires d.Valid()
    ensures var r := FilterData(d, Name(c));
      && |r.filteredSales| == HistoryLength
      && (forall j :: 0 <= j < HistoryLength ==>
            r.filteredSales[j] == Row(FirstYear + j, Name(c), d.Column(c)[j]))
      && r.totalSales == Sum(d.Column(c))
      && r.yearlyAvg == TruncDiv(Sum(d.Column(c)), HistoryLength)
      && r.topCoffee == Name(c)
      && r.pieData == [PieSlice(Name(c), Sum(d.Column(c)))]
  {
    SelectCategory(d, c);
  }

  /**
   * The `all` filter: the whole sales table, the grand total, its truncated
   * yearly average, the global top product and the three-slice pie.
   */
  lemma FilterAll(d: SalesData)
    requires d.Valid()
    ensures var r := FilterData(d, AllFilter);
      && r.filteredSales == SalesLong(d)
      && |r.filteredSales| == |Categories| * HistoryLength
      && r.totalSales == Sum(d.espresso) + Sum(d.latte) + Sum(d.cappuccino)
      && r.yearlyAvg == TruncDiv(Sum(d.espresso) + Sum(d.latte) + Sum(d.cappuccino), HistoryLength)
      && r.topCoffee == Name(TopProduct(d))
      && r.pieData == TotalByCoffee(d)
  {
    assert FilterData(d, AllFilter) == Selection(SalesLong(d), Sum(Totals(d)), YearlyAverage(Totals(d)),
                                                 Name(TopProduct(d)), TotalByCoffee(d));
    SumAddSeries(d.espresso, d.latte, d.cappuccino);
  }

  /** Any value that is not a category name gives the same result as `all`. */
  lemma FilterDefaultIsAll(d: SalesData, f: string)
    requires d.Valid()
    requires !(f in CategoryNames)
    ensures FilterData(d, f) == FilterData(d, AllFilter)
  {
    assert f != "Espresso" && f != "Latte" && f != "Cappuccino";
  }

  /** The pie always adds up to the total shown on the KPI card. */
  lemma FilterPieMatchesTotal(d: SalesData, f: string)
    requires d.Valid()
    ensures SliceSum(FilterData(d, f).pieData) == FilterData(d, f).totalSales
  {
    TotalByCoffeeIsGrandTotal(d);
  }

  /**
   * The trends view's price rows: the whole price table for `all`,
   * otherwise the rows whose label equals the filter value.
   */
  function PriceSelection(p: PriceData, f: string): (r: seq<Row<real>>)
    requires p.Valid()
    ensures forall x :: x in r ==> x in PriceLong(p)
  {
    if f == AllFilter then PriceLong(p) else SelectType(PriceLong(p), f)
  }

  /**
   * Unlike `filter_data`, the price selection keeps nothing for a value that
   * is neither `all` nor a category name.
   */
  lemma PriceSelectionUnrecognised(p: PriceData, f: string)
    requires p.Valid()
    requires !Recognised(f)
    ensures PriceSelection(p, f) == []
  {
    PriceLongTypes(p);
    SelectNone(PriceLong(p), f);
  }

  /** For a category name the price selection is that category's 12 rows, in order. */
  lemma PriceSelectionCategory(p: PriceData, c: Category)
    requires p.Valid()
    ensures PriceSelection(p, Name(c)) == MeltColumn(Years(), Name(c), p.Column(c))
  {
    PriceLongBlocks(p);
    SelectThreeBlocks(Years(), "Espresso", p.espresso, "Latte", p.latte, "Cappuccino", p.cappuccino, Name(c));
  }

  /**
   * The categories a per-filter chart or table includes: each category is
   * tested in declaration order and kept when the filter is `all` or its name.
   */
  function IncludedCategories(f: string): (r: seq<Category>)
    ensures f == AllFilter ==> r == Categories
    ensures f in CategoryNames ==> r == [CategoryOf(f)]
    ensures !Recognised(f) ==> r == []
  {
    (if f == AllFilter || f == "Espresso" then [Espresso] else [])
    + (if f == AllFilter || f == "Latte" then [Latte] else [])
    + (if f == AllFilter || f == "Cappuccino" then [Cappuccino] else [])
  }

  /**
   * The products of the price-optimisation table, appended one by one as
   * the filter allows (the other fields of each row are fixed text).
   */
  method BuildPriceRows(f: string) returns (products: seq<string>)
    ensures products == Names(IncludedCategories(f))
  {
    products := [];
    if f == AllFilter || f == "Espresso" {
      products := products + ["Espresso"];
    }
    if f == AllFilter || f == "Latte" {
      products := products + ["Latte"];
    }
    if f == AllFilter || f == "Cappuccino" {
      products := products + ["Cappuccino"];
    }
  }

  /**
   * The columns of the trends view's period table: `Period`, then one
   * column per included category, assigned in declaration order.
   */
  method BuildPeriodColumns(f: string) returns (columns: seq<string>)
    ensures columns == ["Period"] + Names(IncludedCategories(f))
  {
    columns := ["Period"];
    if f == AllFilter || f == "Espresso" {
      columns := columns + ["Espresso"];
    }
    if f == AllFilter || f == "Latte" {
      columns := columns + ["Latte"];
    }
    if f == AllFilter || f == "Cappuccino" {
      columns := columns + ["Cappuccino"];
    }
  }

  /** The melt's value columns: every column except `Period`, in order. */
  function ValueVars(columns: seq<string>): (r: seq<string>)
    ensures forall x :: x in r <==> x in columns && x != "Period"
  {
    if columns == [] then []
    else if columns[0] != "Period" then [columns[0]] + ValueVars(columns[1..])
    else ValueVars(columns[1..])
  }

  /** The period chart melts exactly the included categories, in declaration order. */
  lemma {:induction false} PeriodValueVars(f: string)
    ensures ValueVars(["Period"] + Names(IncludedCategories(f))) == Names(IncludedCategories(f))
  {
    var names := Names(IncludedCategories(f));
    assert (["Period"] + names)[1..] == names;
    KeepNonPeriod(names);
  }

  lemma {:induction false} KeepNonPeriod(columns: seq<string>)
    requires "Period" !in columns
    ensures ValueVars(columns) == columns
  {
    if columns != [] {
      KeepNonPeriod(columns[1..]);
    }
  }
}
