/**
 * The long ("melted") sales and price tables: one row per (category, year)
 * pair, category-major, years in chronological order within each category,
 * and the boolean-mask row selection the views apply to them.
 */
module LongTable {
  import opened Sales

  /** One row of a melted table: `Year`, `Coffee Type` and the value column. */
  datatype Row<T> = Row(year: int, coffeeType: string, value: T)

  /** A named column of the wide table. */
  datatype Column<T> = Column(name: string, values: seq<T>)

  /** The rows that one value column contributes to a melt. */
  function MeltColumn<T>(years: seq<int>, name: string, values: seq<T>): (r: seq<Row<T>>)
    requires |values| == |years|
    ensures |r| == |years|
    ensures forall j :: 0 <= j < |years| ==> r[j] == Row(years[j], name, values[j])
  {
    seq(|years|, j requires 0 <= j < |years| => Row(years[j], name, values[j]))
  }

  /** Every column has one value per year. */
  predicate Rectangular<T>(years: seq<int>, columns: seq<Column<T>>) {
    forall k :: 0 <= k < |columns| ==> |columns[k].values| == |years|
  }

  /**
   * `pd.melt(df, id_vars=['Year'], value_vars=...)`: the value columns are
   * stacked one after the other, each as one row per year.
   */
  function Melt<T>(years: seq<int>, columns: seq<Column<T>>): (r: seq<Row<T>>)
    requires Rectangular(years, columns)
    ensures |r| == |columns| * |years|
  {
    if columns == [] then []
    else MeltColumn(years, columns[0].name, columns[0].values) + Melt(years, columns[1..])
  }

  /** Row k * |years| + j of a melt is year j of column k. */
  lemma {:induction false} MeltAt<T>(years: seq<int>, columns: seq<Column<T>>, k: nat, j: nat)
    requires Rectangular(years, columns)
    requires k < |columns| && j < |years|
    ensures k * |years| + j < |Melt(years, columns)|
    ensures Melt(years, columns)[k * |years| + j] == Row(years[j], columns[k].name, columns[k].values[j])
  {
    var n := |years|;
    var head := MeltColumn(years, columns[0].name, columns[0].values);
    var rest := Melt(years, columns[1..]);
    assert Melt(years, columns) == head + rest;
    MulPred(|columns|, n);
    if k > 0 {
      MeltAt(years, columns[1..], k - 1, j);
      var i := (k - 1) * n + j;
      MulPred(k, n);
      assert (head + rest)[n + i] == rest[i];
    }
  }

  /** One step of the row-offset arithmetic: (a - 1) * n + n == a * n. */
  lemma MulPred(a: nat, n: nat)
    requires a > 0
    ensures (a - 1) * n >= 0 && (a - 1) * n + n == a * n
  {
  }

  /**
   * Boolean-mask selection `table[table['Coffee Type'] == t]`: the rows whose
   * category is t, in their original order.
   */
  function SelectType<T>(rows: seq<Row<T>>, t: string): (r: seq<Row<T>>)
    ensures |r| <= |rows|
    ensures forall x :: x in r ==> x in rows && x.coffeeType == t
    ensures forall x :: x in rows && x.coffeeType == t ==> x in r
  {
    if rows == [] then []
    else if rows[0].coffeeType == t then [rows[0]] + SelectType(rows[1..], t)
    else SelectType(rows[1..], t)
  }

  lemma {:induction false} SelectConcat<T>(a: seq<Row<T>>, b: seq<Row<T>>, t: string)
    ensures SelectType(a + b, t) == SelectType(a, t) + SelectType(b, t)
  {
    if a == [] {
      assert a + b == b;
    } else {
      assert (a + b)[0] == a[0];
      assert (a + b)[1..] == a[1..] + b;
      SelectConcat(a[1..], b, t);
    }
  }

  /** Selecting by a type that every row carries keeps every row. */
  lemma {:induction false} SelectAll<T>(rows: seq<Row<T>>, t: string)
    requires forall x :: x in rows ==> x.coffeeType == t
    ensures SelectType(rows, t) == rows
  {
    if rows != [] {
      SelectAll(rows[1..], t);
    }
  }

  /** Selecting by a type that no row carries yields nothing. */
  lemma SelectNone<T>(rows: seq<Row<T>>, t: string)
    requires forall x :: x in rows ==> x.coffeeType != t
    ensures SelectType(rows, t) == []
  {
  }

  /** A block of melted rows survives a selection whole or not at all. */
  lemma SelectBlock<T>(years: seq<int>, name: string, values: seq<T>, t: string)
    requires |values| == |years|
    ensures SelectType(MeltColumn(years, name, values), t)
      == if name == t then MeltColumn(years, name, values) else []
  {
    if name == t {
      SelectAll(MeltColumn(years, name, values), t);
    } else {
      SelectNone(MeltColumn(years, name, values), t);
    }
  }

  /** Selecting from three melted columns selects from each in turn. */
  lemma SelectThreeBlocks<T>(years: seq<int>, n1: string, v1: seq<T>, n2: string, v2: seq<T>,
                             n3: string, v3: seq<T>, t: string)
    requires |v1| == |years| && |v2| == |years| && |v3| == |years|
    ensures SelectType(MeltColumn(years, n1, v1) + MeltColumn(years, n2, v2) + MeltColumn(years, n3, v3), t)
      == (if n1 == t then MeltColumn(years, n1, v1) else [])
       + (if n2 == t then MeltColumn(years, n2, v2) else [])
       + (if n3 == t then MeltColumn(years, n3, v3) else [])
  {
    var b1, b2, b3 := MeltColumn(years, n1, v1), MeltColumn(years, n2, v2), MeltColumn(years, n3, v3);
    SelectConcat(b1 + b2, b3, t);
    SelectConcat(b1, b2, t);
    SelectBlock(years, n1, v1, t);
    SelectBlock(years, n2, v2, t);
    SelectBlock(years, n3, v3, t);
  }

  /** The value columns of the sales melt: the categories in declaration order. */
  function SalesColumns(d: SalesData): (r: seq<Column<int>>)
    requires d.Valid()
    ensures Rectangular(Years(), r)
    ensures |r| == |Categories|
    ensures forall k :: 0 <= k < |Categories| ==> r[k] == Column(Name(Categories[k]), d.Column(Categories[k]))
  {
    [Column("Espresso", d.espresso), Column("Latte", d.latte), Column("Cappuccino", d.cappuccino)]
  }

  /** `sales_long`. */
  function SalesLong(d: SalesData): seq<Row<int>>
    requires d.Valid()
  {
    Melt(Years(), SalesColumns(d))
  }

  /**
   * The sales table has 3 * 12 = 36 rows, and row k * 12 + j is year j of
   * category k in declaration order.
   */
  lemma SalesLongAt(d: SalesData, k: nat, j: nat)
    requires d.Valid()
    requires k < |Categories| && j < HistoryLength
    ensures |SalesLong(d)| == |Categories| * HistoryLength
    ensures SalesLong(d)[k * HistoryLength + j]
      == Row(FirstYear + j, Name(Categories[k]), d.Column(Categories[k])[j])
  {
    MeltAt(Years(), SalesColumns(d), k, j);
  }

  /** The three sales blocks, one per category, concatenated in declaration order. */
  lemma SalesLongBlocks(d: SalesData)
    requires d.Valid()
    ensures SalesLong(d) == MeltColumn(Years(), "Espresso", d.espresso)
      + MeltColumn(Years(), "Latte", d.latte) + MeltColumn(Years(), "Cappuccino", d.cappuccino)
  {
    var cols := SalesColumns(d);
    assert Melt(Years(), cols[1..][1..][1..]) == [];
    assert Melt(Years(), cols[1..][1..]) == MeltColumn(Years(), "Cappuccino", d.cappuccino);
    assert Melt(Years(), cols[1..]) == MeltColumn(Years(), "Latte", d.latte)
      + MeltColumn(Years(), "Cappuccino", d.cappuccino);
  }

  /** Every row of the sales table carries one of the three category names. */
  lemma SalesLongTypes(d: SalesData)
    requires d.Valid()
    ensures forall x :: x in SalesLong(d) ==> x.coffeeType in CategoryNames
  {
    SalesLongBlocks(d);
  }

  /**
   * Selecting one category from the sales table yields exactly that
   * category's 12 rows, in chronological order.
   */
  lemma SelectCategory(d: SalesData, c: Category)
    requires d.Valid()
    ensures SelectType(SalesLong(d), Name(c)) == MeltColumn(Years(), Name(c), d.Column(c))
  {
    SalesLongBlocks(d);
    SelectThreeBlocks(Years(), "Espresso", d.espresso, "Latte", d.latte, "Cappuccino", d.cappuccino, Name(c));
    match c
    case Espresso => assert "Latte" != "Espresso" && "Cappuccino" != "Espresso";
    case Latte => assert "Espresso" != "Latte" && "Cappuccino" != "Latte";
    case Cappuccino => assert "Espresso" != "Cappuccino" && "Latte" != "Cappuccino";
  }

  /** Historical unit prices per category (float64 in the source, kept opaque here). */
  datatype PriceData = PriceData(espresso: seq<real>, latte: seq<real>, cappuccino: seq<real>)
  {
    predicate Valid() {
      |espresso| == HistoryLength && |latte| == HistoryLength && |cappuccino| == HistoryLength
    }

    function Column(c: Category): seq<real> {
      match c
      case Espresso => espresso
      case Latte => latte
      case Cappuccino => cappuccino
    }
  }

  /** The price column of a category: its name followed by `Price`. */
  function PriceColumnName(c: Category): string {
    match c
    case Espresso => "EspressoPrice"
    case Latte => "LattePrice"
    case Cappuccino => "CappuccinoPrice"
  }

  /**
   * Python's `str.replace(p, "")`: every occurrence of p, scanning left to
   * right without overlaps, is removed.
   */
  function RemoveAll(s: string, p: string): (r: string)
    requires |p| > 0
    ensures |r| <= |s|
    decreases |s|
  {
    if |s| < |p| then s
    else if s[..|p|] == p then RemoveAll(s[|p|..], p)
    else [s[0]] + RemoveAll(s[1..], p)
  }

  /** Removing p from s + p gives back s when s does not contain p's first letter. */
  lemma {:induction false} RemoveAllSuffix(s: string, p: string)
    requires |p| > 0 && p[0] !in s
    ensures RemoveAll(s + p, p) == s
  {
    if s == [] {
      assert s + p == p;
      assert p[|p|..] == [];
    } else {
      assert (s + p)[0] == s[0] != p[0];
      assert (s + p)[..|p|] != p;
      assert (s + p)[1..] == s[1..] + p;
      RemoveAllSuffix(s[1..], p);
    }
  }

  /** Stripping `Price` from a price column name gives the category name. */
  lemma StripPriceName(c: Category)
    ensures RemoveAll(PriceColumnName(c), "Price") == Name(c)
  {
    assert PriceColumnName(c) == Name(c) + "Price";
    RemoveAllSuffix(Name(c), "Price");
  }

  /** `price_long['Coffee Type'].str.replace('Price', '')`. */
  function StripPrice<T>(rows: seq<Row<T>>): (r: seq<Row<T>>)
    ensures |r| == |rows|
    ensures forall i :: 0 <= i < |rows| ==>
      r[i] == Row(rows[i].year, RemoveAll(rows[i].coffeeType, "Price"), rows[i].value)
  {
    seq(|rows|, i requires 0 <= i < |rows| =>
      Row(rows[i].year, RemoveAll(rows[i].coffeeType, "Price"), rows[i].value))
  }

  function PriceColumns(p: PriceData): (r: seq<Column<real>>)
    requires p.Valid()
    ensures Rectangular(Years(), r)
    ensures |r| == |Categories|
    ensures forall k :: 0 <= k < |Categories| ==>
      r[k] == Column(PriceColumnName(Categories[k]), p.Column(Categories[k]))
  {
    [Column("EspressoPrice", p.espresso), Column("LattePrice", p.latte),
     Column("CappuccinoPrice", p.cappuccino)]
  }

  /** `price_long`, after its labels have been stripped of `Price`. */
  function PriceLong(p: PriceData): seq<Row<real>>
    requires p.Valid()
  {
    StripPrice(Melt(Years(), PriceColumns(p)))
  }

  /**
   * The price table has the same 36-row layout as the sales table: row
   * k * 12 + j is year j of category k, and its label is the plain
   * category name.
   */
  lemma PriceLongAt(p: PriceData, k: nat, j: nat)
    requires p.Valid()
    requires k < |Categories| && j < HistoryLength
    ensures |PriceLong(p)| == |Categories| * HistoryLength
    ensures PriceLong(p)[k * HistoryLength + j]
      == Row(FirstYear + j, Name(Categories[k]), p.Column(Categories[k])[j])
  {
    MeltAt(Years(), PriceColumns(p), k, j);
    StripPriceName(Categories[k]);
  }

  /** After stripping, the price table and the sales table carry the same years and labels row by row. */
  lemma PriceLabelsMatchSales(d: SalesData, p: PriceData, i: nat)
    requires d.Valid() && p.Valid()
    requires i < |Categories| * HistoryLength
    ensures |PriceLong(p)| == |SalesLong(d)|
    ensures PriceLong(p)[i].year == SalesLong(d)[i].year
    ensures PriceLong(p)[i].coffeeType == SalesLong(d)[i].coffeeType
  {
    var k, j := i / HistoryLength, i % HistoryLength;
    assert i == k * HistoryLength + j;
    PriceLongAt(p, k, j);
    SalesLongAt(d, k, j);
  }

  /** The label rewrite distributes over concatenation. */
  lemma StripPriceConcat<T>(a: seq<Row<T>>, b: seq<Row<T>>)
    ensures StripPrice(a + b) == StripPrice(a) + StripPrice(b)
  {
  }

  /** Rewriting the labels of one melted column rewrites its name. */
  lemma StripPriceColumn<T>(years: seq<int>, name: string, values: seq<T>)
    requires |values| == |years|
    ensures StripPrice(MeltColumn(years, name, values)) == MeltColumn(years, RemoveAll(name, "Price"), values)
  {
  }

  /** The stripped price table, as three per-category blocks. */
  lemma PriceLongBlocks(p: PriceData)
    requires p.Valid()
    ensures PriceLong(p) == MeltColumn(Years(), "Espresso", p.espresso)
      + MeltColumn(Years(), "Latte", p.latte) + MeltColumn(Years(), "Cappuccino", p.cappuccino)
  {
    var cols := PriceColumns(p);
    var e := MeltColumn(Years(), "EspressoPrice", p.espresso);
    var l := MeltColumn(Years(), "LattePrice", p.latte);
    var c := MeltColumn(Years(), "CappuccinoPrice", p.cappuccino);
    assert Melt(Years(), cols[1..][1..][1..]) == [];
    assert Melt(Years(), cols[1..][1..]) == c;
    assert Melt(Years(), cols[1..]) == l + c;
    assert Melt(Years(), cols) == e + l + c;
    StripPriceConcat(e + l, c);
    StripPriceConcat(e, l);
    StripPriceColumn(Years(), "EspressoPrice", p.espresso);
    StripPriceColumn(Years(), "LattePrice", p.latte);
    StripPriceColumn(Years(), "CappuccinoPrice", p.cappuccino);
    StripPriceName(Espresso);
    StripPriceName(Latte);
    StripPriceName(Cappuccino);
  }

  /** Every row of the stripped price table carries one of the three category names. */
  lemma PriceLongTypes(p: PriceData)
    requires p.Valid()
    ensures forall x :: x in PriceLong(p) ==> x.coffeeType in CategoryNames
  {
    PriceLongBlocks(p);
  }
}
