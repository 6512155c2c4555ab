/**
 * The wide sales table of the coffee dashboard and its module-level
 * aggregates: per-year totals, per-category totals, the yearly average
 * shown on the KPI card, the best-selling product and the best year.
 */
module Sales {

  /** The three product lines, in the order the dashboard declares them. */
  datatype Category = Espresso | Latte | Cappuccino

  const Categories: seq<Category> := [Espresso, Latte, Cappuccino]

  /** Number of historical years (2014 to 2025). */
  const HistoryLength: nat := 12

  const FirstYear: int := 2014

  /** The label of a category, as used in column names and filter values. */
  function Name(c: Category): string {
    match c
    case Espresso => "Espresso"
    case Latte => "Latte"
    case Cappuccino => "Cappuccino"
  }

  /** Position of a category in the declaration order. */
  function Index(c: Category): (k: nat)
    ensures k < |Categories| && Categories[k] == c
  {
    match c
    case Espresso => 0
    case Latte => 1
    case Cappuccino => 2
  }

  /** The labels of some categories, in the same order. */
  function Names(cs: seq<Category>): (r: seq<string>)
    ensures |r| == |cs|
    ensures forall k :: 0 <= k < |cs| ==> r[k] == Name(cs[k])
  {
    if cs == [] then [] else [Name(cs[0])] + Names(cs[1..])
  }

  const CategoryNames: set<string> := {"Espresso", "Latte", "Cappuccino"}

  lemma NameInjective(c: Category, d: Category)
    ensures Name(c) == Name(d) <==> c == d
    ensures Name(c) in CategoryNames
    ensures Name(c) != "all"
  {
  }

  /** The integers lo, lo + 1, ..., hi - 1 (Python's `range(lo, hi)`). */
  function Range(lo: int, hi: int): (r: seq<int>)
    requires lo <= hi
    ensures |r| == hi - lo
    ensures forall i :: 0 <= i < |r| ==> r[i] == lo + i
    ensures forall x :: x in r <==> lo <= x < hi
    decreases hi - lo
  {
    if lo == hi then [] else [lo] + Range(lo + 1, hi)
  }

  /** The historical years, 2014 through 2025. */
  function Years(): (r: seq<int>)
    ensures |r| == HistoryLength
    ensures forall i :: 0 <= i < |r| ==> r[i] == FirstYear + i
  {
    Range(2014, 2026)
  }

  /** Yearly unit sales per category; the source draws them at start-up. */
  datatype SalesData = SalesData(espresso: seq<int>, latte: seq<int>, cappuccino: seq<int>)
  {
    /** Every column has one value per historical year. */
    predicate Valid() {
      |espresso| == HistoryLength && |latte| == HistoryLength && |cappuccino| == HistoryLength
    }

    function Column(c: Category): seq<int> {
      match c
      case Espresso => espresso
      case Latte => latte
      case Cappuccino => cappuccino
    }
  }

  /** Sum of a series (pandas `Series.sum()` on an integer column). */
  function Sum(s: seq<int>): int {
    if s == [] then 0 else s[0] + Sum(s[1..])
  }

  /** Element-wise sum of three equally long series (the `Total` column). */
  function AddSeries(a: seq<int>, b: seq<int>, c: seq<int>): (r: seq<int>)
    requires |a| == |b| == |c|
    ensures |r| == |a|
    ensures forall i :: 0 <= i < |a| ==> r[i] == a[i] + b[i] + c[i]
  {
    if a == [] then [] else [a[0] + b[0] + c[0]] + AddSeries(a[1..], b[1..], c[1..])
  }

  /** `sales_data['Total']`: units sold per year over all categories. */
  function Totals(d: SalesData): (r: seq<int>)
    requires d.Valid()
    ensures |r| == HistoryLength
    ensures forall i :: 0 <= i < HistoryLength ==>
      r[i] == d.Column(Espresso)[i] + d.Column(Latte)[i] + d.Column(Cappuccino)[i]
  {
    AddSeries(d.espresso, d.latte, d.cappuccino)
  }

  /** Summing the element-wise sum equals summing each series first. */
  lemma {:induction false} SumAddSeries(a: seq<int>, b: seq<int>, c: seq<int>)
    requires |a| == |b| == |c|
    ensures Sum(AddSeries(a, b, c)) == Sum(a) + Sum(b) + Sum(c)
  {
    if a != [] {
      SumAddSeries(a[1..], b[1..], c[1..]);
      assert AddSeries(a, b, c)[1..] == AddSeries(a[1..], b[1..], c[1..]);
    }
  }

  /** The per-category totals, in declaration order (the list given to argmax). */
  function CategoryTotals(d: SalesData): (r: seq<int>)
    ensures |r| == |Categories|
    ensures forall k :: 0 <= k < |Categories| ==> r[k] == Sum(d.Column(Categories[k]))
  {
    [Sum(d.espresso), Sum(d.latte), Sum(d.cappuccino)]
  }

  /** One slice of the share-by-type pie: a label and its unit total. */
  datatype PieSlice = PieSlice(coffeeType: string, sales: int)

  /** The `total_by_coffee` table: one slice per category, in declaration order. */
  function TotalByCoffee(d: SalesData): (r: seq<PieSlice>)
  {
    [PieSlice("Espresso", Sum(d.espresso)), PieSlice("Latte", Sum(d.latte)),
     PieSlice("Cappuccino", Sum(d.cappuccino))]
  }

  function SliceSum(slices: seq<PieSlice>): int {
    if slices == [] then 0 else slices[0].sales + SliceSum(slices[1..])
  }

  /**
   * `total_by_coffee` has one slice per category with that category's label and
   * column sum, and the slices add up to the grand total of the `Total` column.
   */
  lemma TotalByCoffeeIsGrandTotal(d: SalesData)
    requires d.Valid()
    ensures |TotalByCoffee(d)| == |Categories|
    ensures forall k :: 0 <= k < |Categories| ==>
      TotalByCoffee(d)[k] == PieSlice(Name(Categories[k]), Sum(d.Column(Categories[k])))
    ensures SliceSum(TotalByCoffee(d)) == Sum(Totals(d))
  {
    SumAddSeries(d.espresso, d.latte, d.cappuccino);
    var t := TotalByCoffee(d);
    assert SliceSum(t[2..]) == Sum(d.cappuccino);
    assert t[1..][1..] == t[2..];
  }

  /**
   * `np.argmax`: the index of the largest value; on ties, the first such index.
   */
  function ArgMax(s: seq<int>): (k: nat)
    requires |s| > 0
    ensures k < |s|
    ensures forall j :: 0 <= j < |s| ==> s[j] <= s[k]
    ensures forall j :: 0 <= j < k ==> s[j] < s[k]
  {
    if |s| == 1 then 0
    else
      var k := ArgMax(s[..|s| - 1]);
      if s[|s| - 1] > s[k] then |s| - 1 else k
  }

  /** `top_product`: the category with the largest unit total. */
  function TopProduct(d: SalesData): (top: Category)
    ensures forall c :: Sum(d.Column(c)) <= Sum(d.Column(top))
    ensures forall c :: Index(c) < Index(top) ==> Sum(d.Column(c)) < Sum(d.Column(top))
  {
    var totals := CategoryTotals(d);
    var k := ArgMax(totals);
    assert forall c :: totals[Index(c)] == Sum(d.Column(c));
    Categories[k]
  }

  /** `top_year`: the year with the largest total, the earliest on ties. */
  function TopYear(d: SalesData): (y: int)
    requires d.Valid()
    ensures FirstYear <= y < FirstYear + HistoryLength
    ensures forall i :: 0 <= i < HistoryLength ==> Totals(d)[i] <= Totals(d)[y - FirstYear]
    ensures forall i :: 0 <= i < y - FirstYear ==> Totals(d)[i] < Totals(d)[y - FirstYear]
  {
    var k := ArgMax(Totals(d));
    assert Years()[k] == FirstYear + k;
    Years()[k]
  }

  /**
   * Python's `int(x / n)` for an integer x and a positive count n: the
   * quotient truncated toward zero (Dafny's own `/` rounds toward minus
   * infinity for a negative x).
   */
  function TruncDiv(x: int, n: int): (q: int)
    requires n > 0
    ensures x >= 0 ==> 0 <= q && q * n <= x < q * n + n
    ensures x < 0 ==> q <= 0 && q * n - n < x <= q * n
  {
    if x >= 0 then DivNonNeg(x, n); x / n else DivNonNeg(-x, n); -((-x) / n)
  }

  /** Dafny's `/` on a non-negative dividend brackets it between q·n and q·n + n. */
  lemma DivNonNeg(x: int, n: int)
    requires x >= 0 && n > 0
    ensures 0 <= x / n && x / n * n <= x < x / n * n + n
  {
  }

  /** `int(series.mean())`: the truncated average of a non-empty series. */
  function YearlyAverage(s: seq<int>): int
    requires |s| > 0
  {
    TruncDiv(Sum(s), |s|)
  }
}
