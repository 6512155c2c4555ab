/**
 * The prediction series of the predictions view: each category's 12
 * historical values followed by its 4 forecast values, on the year axis
 * 2014..2029, and the figure that shows each series as a solid history
 * trace and a dotted forecast trace sharing the 2025 point.
 *
 * The forecast itself (an AR(1) fit) is an input here: only its length,
 * 4 values, is assumed of it.
 */
module Predictions {
  import opened Sales
  import opened Filtering

  /** Number of forecast years. */
  const Horizon: nat := 4

  const FutureYears: seq<int> := [2026, 2027, 2028, 2029]

  /** `prediction_years`: the historical years followed by the forecast years. */
  function PredictionYears(): seq<int> {
    Years() + FutureYears
  }

  /** The prediction axis is the 16 contiguous years 2014 through 2029. */
  lemma PredictionYearsContiguous()
    ensures |PredictionYears()| == HistoryLength + Horizon
    ensures forall i :: 0 <= i < |PredictionYears()| ==> PredictionYears()[i] == FirstYear + i
  {
  }

  /** Integer counts as the floats they become once mixed with forecasts. */
  function AsReals(s: seq<int>): (r: seq<real>)
    ensures |r| == |s|
    ensures forall i :: 0 <= i < |s| ==> r[i] == s[i] as real
  {
    if s == [] then [] else [s[0] as real] + AsReals(s[1..])
  }

  /** `list(history) + predict_future_values(history)`. */
  function PredictionSeries(history: seq<int>, forecast: seq<real>): seq<real> {
    AsReals(history) + forecast
  }

  /**
   * A prediction series has 12 + 4 = 16 values aligned with the prediction
   * years: the history first, unchanged, then the forecast.
   */
  lemma PredictionSeriesLayout(history: seq<int>, forecast: seq<real>)
    requires |history| == HistoryLength && |forecast| == Horizon
    ensures |PredictionSeries(history, forecast)| == |PredictionYears()|
    ensures forall i :: 0 <= i < HistoryLength ==> PredictionSeries(history, forecast)[i] == history[i] as real
    ensures PredictionSeries(history, forecast)[HistoryLength..] == forecast
  {
    var s := PredictionSeries(history, forecast);
    assert s[|AsReals(history)|..] == forecast;
  }

  /** The solid part of a series: indices 0..11 (`[:12]`). */
  function HistorySlice<T>(s: seq<T>): seq<T>
    requires |s| >= HistoryLength
  {
    s[..HistoryLength]
  }

  /** The dotted part of a series: indices 11..15 (`[11:]`). */
  function ForecastSlice<T>(s: seq<T>): seq<T>
    requires |s| >= HistoryLength
  {
    s[HistoryLength - 1..]
  }

  /**
   * On a 16-value series the two slices together cover every index and
   * share exactly one, index 11 (the year 2025): the forecast line starts
   * at the last historical point.
   */
  lemma SlicesCoverAndOverlap<T>(s: seq<T>)
    requires |s| == HistoryLength + Horizon
    ensures |HistorySlice(s)| == HistoryLength && |ForecastSlice(s)| == Horizon + 1
    ensures forall i :: 0 <= i < |s| ==>
      (i < HistoryLength ==> HistorySlice(s)[i] == s[i])
      && (i >= HistoryLength - 1 ==> ForecastSlice(s)[i - (HistoryLength - 1)] == s[i])
    ensures HistoryIndices() + ForecastIndices() == (set i | i in Range(0, |s|))
    ensures HistoryIndices() * ForecastIndices() == {11}
    ensures HistorySlice(s)[HistoryLength - 1] == ForecastSlice(s)[0]
  {
  }

  /** The indices `[:12]` keeps. */
  function HistoryIndices(): set<int> {
    set i | i in Range(0, HistoryLength)
  }

  /** The indices `[11:]` keeps on a 16-value series. */
  function ForecastIndices(): set<int> {
    set i | i in Range(11, 16)
  }

  /** One trace of the prediction figure. */
  datatype Trace = Trace(name: string, x: seq<int>, y: seq<real>, dotted: bool)

  /** The 16-value prediction series of each category. */
  datatype PredictionSet = PredictionSet(espresso: seq<real>, latte: seq<real>, cappuccino: seq<real>)
  {
    predicate Valid() {
      |espresso| == HistoryLength + Horizon && |latte| == HistoryLength + Horizon
      && |cappuccino| == HistoryLength + Horizon
    }

    function Series(c: Category): seq<real> {
      match c
      case Espresso => espresso
      case Latte => latte
      case Cappuccino => cappuccino
    }
  }

  /** The four forecast values of each category (`predict_future_values`). */
  datatype Forecasts = Forecasts(espresso: seq<real>, latte: seq<real>, cappuccino: seq<real>)
  {
    predicate Valid() {
      |espresso| == Horizon && |latte| == Horizon && |cappuccino| == Horizon
    }

    function Of(c: Category): seq<real> {
      match c
      case Espresso => espresso
      case Latte => latte
      case Cappuccino => cappuccino
    }
  }

  /** `espresso_predictions`, `latte_predictions` and `cappuccino_predictions`. */
  function BuildPredictions(d: SalesData, fc: Forecasts): PredictionSet {
    PredictionSet(PredictionSeries(d.espresso, fc.espresso),
                  PredictionSeries(d.latte, fc.latte),
                  PredictionSeries(d.cappuccino, fc.cappuccino))
  }

  /**
   * Built from the sales table and four-value forecasts, each category's
   * solid trace plots its 12 historical sales over 2014..2025, and its
   * dotted trace starts at the 2025 sale and continues with the forecast
   * over 2026..2029.
   */
  lemma {:induction false} PredictionTracesFromSales(d: SalesData, fc: Forecasts, c: Category)
    requires d.Valid() && fc.Valid()
    ensures BuildPredictions(d, fc).Valid()
    ensures var t := CategoryTraces(c, BuildPredictions(d, fc).Series(c));
      && t[0] == Trace(Name(c), Years(), AsReals(d.Column(c)), false)
      && t[1] == Trace(Name(c) + " Forecast", [FirstYear + HistoryLength - 1] + FutureYears,
                       [d.Column(c)[HistoryLength - 1] as real] + fc.Of(c), true)
  {
    var p := BuildPredictions(d, fc);
    assert p.Series(c) == AsReals(d.Column(c)) + fc.Of(c);
    SplitSeries(AsReals(d.Column(c)), fc.Of(c));
    SplitYears();
  }

  /** The two slices of a history followed by its forecast. */
  lemma SplitSeries<T>(h: seq<T>, f: seq<T>)
    requires |h| == HistoryLength
    ensures HistorySlice(h + f) == h
    ensures ForecastSlice(h + f) == [h[HistoryLength - 1]] + f
  {
    assert (h + f)[HistoryLength - 1..] == h[HistoryLength - 1..] + f;
    assert h[HistoryLength - 1..] == [h[HistoryLength - 1]];
  }

  /** The solid traces span 2014..2025 and the dotted ones 2025..2029. */
  lemma SplitYears()
    ensures HistorySlice(PredictionYears()) == Years()
    ensures ForecastSlice(PredictionYears()) == [FirstYear + HistoryLength - 1] + FutureYears
  {
    SplitSeries(Years(), FutureYears);
  }

  /** The history trace and the forecast trace of one category. */
  function CategoryTraces(c: Category, s: seq<real>): seq<Trace>
    requires |s| == HistoryLength + Horizon
  {
    [Trace(Name(c), HistorySlice(PredictionYears()), HistorySlice(s), false),
     Trace(Name(c) + " Forecast", ForecastSlice(PredictionYears()), ForecastSlice(s), true)]
  }

  /** The traces of the prediction figure, two per included category. */
  function PredictionTraces(f: string, p: PredictionSet): seq<Trace>
    requires p.Valid()
  {
    TracesFor(IncludedCategories(f), p)
  }

  function TracesFor(cs: seq<Category>, p: PredictionSet): (r: seq<Trace>)
    requires p.Valid()
    ensures |r| == 2 * |cs|
    ensures forall t :: t in r ==> |t.x| == |t.y|
  {
    if cs == [] then []
    else CategoryTraces(cs[0], p.Series(cs[0])) + TracesFor(cs[1..], p)
  }

  lemma {:induction false} TracesForAppend(cs: seq<Category>, c: Category, p: PredictionSet)
    requires p.Valid()
    ensures TracesFor(cs + [c], p) == TracesFor(cs, p) + CategoryTraces(c, p.Series(c))
  {
    if cs == [] {
      assert cs + [c] == [c];
    } else {
      assert (cs + [c])[1..] == cs[1..] + [c];
      TracesForAppend(cs[1..], c, p);
    }
  }

  /**
   * Every trace pairs each plotted value with its year, and the prediction
   * figure holds six traces for `all`, two for a category name and none
   * for an unrecognised value.
   */
  lemma PredictionTracesShape(f: string, p: PredictionSet)
    requires p.Valid()
    ensures forall t :: t in PredictionTraces(f, p) ==> |t.x| == |t.y|
    ensures f == AllFilter ==> |PredictionTraces(f, p)| == 6
    ensures f in CategoryNames ==> PredictionTraces(f, p) == CategoryTraces(CategoryOf(f), p.Series(CategoryOf(f)))
    ensures !Recognised(f) ==> PredictionTraces(f, p) == []
  {
    var r := PredictionTraces(f, p);
    var cs := IncludedCategories(f);
    if f in CategoryNames {
      assert r == CategoryTraces(cs[0], p.Series(cs[0])) + TracesFor(cs[1..], p);
    }
  }

  /** A plotly figure, reduced to its list of traces. */
  class Figure {
    var traces: seq<Trace>

    constructor ()
      ensures traces == []
    {
      traces := [];
    }

    /** `fig.add_trace(t)`. */
    method AddTrace(t: Trace)
      modifies this
      ensures traces == old(traces) + [t]
    {
      traces := traces + [t];
    }
  }

  /**
   * One category's block of `generate_predictions_view`: its history trace
   * over 2014..2025, then its dotted forecast trace over 2025..2029.
   */
  method AddCategoryTraces(fig: Figure, c: Category, p: PredictionSet)
    requires p.Valid()
    modifies fig
    ensures fig.traces == old(fig.traces) + CategoryTraces(c, p.Series(c))
  {
    var series := p.Series(c);
    fig.AddTrace(Trace(Name(c), PredictionYears()[..12], series[..12], false));
    fig.AddTrace(Trace(Name(c) + " Forecast", PredictionYears()[11..], series[11..], true));
  }

  /**
   * The prediction figure of `generate_predictions_view`: for each category
   * that the filter includes, its history trace and then its forecast trace.
   */
  method BuildPredictionFigure(f: string, p: PredictionSet) returns (fig: Figure)
    requires p.Valid()
    ensures fresh(fig)
    ensures fig.traces == PredictionTraces(f, p)
  {
    fig := new Figure();
    ghost var shown: seq<Category> := [];
    if f == AllFilter || f == "Espresso" {
      AddCategoryTraces(fig, Espresso, p);
      TracesForAppend(shown, Espresso, p);
      shown := shown + [Espresso];
    }
    if f == AllFilter || f == "Latte" {
      AddCategoryTraces(fig, Latte, p);
      TracesForAppend(shown, Latte, p);
      shown := shown + [Latte];
    }
    if f == AllFilter || f == "Cappuccino" {
      AddCategoryTraces(fig, Cappuccino, p);
      TracesForAppend(shown, Cappuccino, p);
      shown := shown + [Cappuccino];
    }
    assert shown == IncludedCategories(f);
  }
}
