/**
 * The dashboard's navigation and filter state machine. Two stores hold the
 * state, the active view and the active coffee filter; the callbacks are
 * pure functions from the triggering component (or none, on the initial
 * call) and the stored values to new values.
 *
 * A trigger is the id of the component that fired, i.e. the part of Dash's
 * `prop_id` before the dot; `None` stands for an empty trigger list.
 */
module Navigation {
  import opened Sales
  import opened Filtering

  datatype Option<T> = None | Some(value: T)

  /** Initial contents of the view and filter stores. */
  const InitialView: string := "dashboard"
  const InitialFilter: string := "all"

  /** The view values the navigation links can store. */
  predicate ValidView(v: string) {
    v == "dashboard" || v == "trends" || v == "predictions"
  }

  /** What a view callback renders: a view generated for a filter value. */
  datatype Content =
    | DashboardView(filter: string)
    | TrendsView(filter: string)
    | PredictionsView(filter: string)

  /** The content a stored view shows for a filter; anything unknown shows the overview. */
  function Render(view: string, filter: string): (c: Content)
    ensures view == "trends" <==> c.TrendsView?
    ensures view == "predictions" <==> c.PredictionsView?
    ensures c.filter == filter
  {
    if view == "trends" then TrendsView(filter)
    else if view == "predictions" then PredictionsView(filter)
    else DashboardView(filter)
  }

  /**
   * `update_nav_active`: one flag per navigation link; exactly one link is
   * highlighted when the stored view is recognised, and none otherwise.
   */
  function NavActive(view: string): (flags: (bool, bool, bool))
    ensures flags.0 <==> view == "dashboard"
    ensures flags.1 <==> view == "trends"
    ensures flags.2 <==> view == "predictions"
    ensures CountTrue([flags.0, flags.1, flags.2]) == (if ValidView(view) then 1 else 0)
  {
    var flags := (view == "dashboard", view == "trends", view == "predictions");
    CountThree(flags.0, flags.1, flags.2);
    flags
  }

  /** `update_filter_active`: one flag per filter button. */
  function FilterActive(filter: string): (flags: (bool, bool, bool, bool))
  {
    (filter == "all", filter == "Espresso", filter == "Latte", filter == "Cappuccino")
  }

  function CountTrue(flags: seq<bool>): nat {
    if flags == [] then 0 else (if flags[0] then 1 else 0) + CountTrue(flags[1..])
  }

  /**
   * Exactly one filter button is highlighted when the stored filter is
   * recognised, and it is the one for that value; none is otherwise.
   */
  lemma FilterActiveOneHot(filter: string)
    ensures var (a, e, l, c) := FilterActive(filter);
      && (a <==> filter == AllFilter)
      && (e <==> filter == Name(Espresso))
      && (l <==> filter == Name(Latte))
      && (c <==> filter == Name(Cappuccino))
      && (CountTrue([a, e, l, c]) == 1 <==> Recognised(filter))
      && (!Recognised(filter) ==> CountTrue([a, e, l, c]) == 0)
  {
    var (a, e, l, c) := FilterActive(filter);
    assert [c][1..] == [];
    assert CountTrue([c]) == (if c then 1 else 0);
    assert [l, c][1..] == [c];
    assert CountTrue([l, c]) == (if l then 1 else 0) + CountTrue([c]);
    assert [e, l, c][1..] == [l, c];
    assert CountTrue([e, l, c]) == (if e then 1 else 0) + CountTrue([l, c]);
    assert [a, e, l, c][1..] == [e, l, c];
    assert CountTrue([a, e, l, c]) == (if a then 1 else 0) + CountTrue([e, l, c]);
  }

  lemma CountThree(a: bool, b: bool, c: bool)
    ensures CountTrue([a, b, c]) == (if a then 1 else 0) + (if b then 1 else 0) + (if c then 1 else 0)
  {
    assert [c][1..] == [];
    assert CountTrue([c]) == (if c then 1 else 0);
    assert [b, c][1..] == [c];
    assert CountTrue([b, c]) == (if b then 1 else 0) + CountTrue([c]);
    assert [a, b, c][1..] == [b, c];
  }

  /** The value a filter button stores, if the id names one. */
  function FilterButtonValue(id: string): Option<string> {
    if id == "filter-all" then Some("all")
    else if id == "filter-espresso" then Some("Espresso")
    else if id == "filter-latte" then Some("Latte")
    else if id == "filter-cappuccino" then Some("Cappuccino")
    else None
  }

  /** `update_coffee_filter`: a filter button stores its value; anything else keeps the filter. */
  function UpdateCoffeeFilter(trigger: Option<string>, active: string): (r: string)
    ensures Recognised(active) ==> Recognised(r)
    ensures r == active || Recognised(r)
  {
    match trigger
    case None => active
    case Some(id) =>
      match FilterButtonValue(id)
      case Some(v) => v
      case None => active
  }

  /**
   * No trigger or an unknown component keeps the stored filter; each filter
   * button stores its own value whatever was stored before, so pressing it
   * again changes nothing.
   */
  lemma CoffeeFilterTransitions(trigger: Option<string>, active: string)
    ensures trigger.None? ==> UpdateCoffeeFilter(trigger, active) == active
    ensures trigger.Some? && FilterButtonValue(trigger.value).None? ==>
      UpdateCoffeeFilter(trigger, active) == active
    ensures trigger.Some? && FilterButtonValue(trigger.value).Some? ==>
      UpdateCoffeeFilter(trigger, active) == FilterButtonValue(trigger.value).value
    ensures UpdateCoffeeFilter(trigger, UpdateCoffeeFilter(trigger, active))
      == UpdateCoffeeFilter(trigger, active)
  {
  }

  /** The outputs of `update_view`: the content, the stored view and the header label. */
  datatype ViewUpdate = ViewUpdate(content: Content, view: string, header: string)

  /** `update_view`: a navigation link switches view; anything else shows the overview. */
  function UpdateView(trigger: Option<string>, active: string, filter: string): (r: ViewUpdate)
    ensures ValidView(r.view)
    ensures r.view == "trends" <==> trigger == Some("nav-trends")
    ensures r.view == "predictions" <==> trigger == Some("nav-predictions")
    ensures r.content == Render(r.view, filter)
    ensures r.header == (if r.view == "dashboard" then "OVERVIEW" else if r.view == "trends" then "TRENDS" else "PREDICTIONS")
  {
    match trigger
    case None => ViewUpdate(DashboardView(filter), "dashboard", "OVERVIEW")
    case Some(id) =>
      if id == "nav-dashboard" then ViewUpdate(DashboardView(filter), "dashboard", "OVERVIEW")
      else if id == "nav-trends" then ViewUpdate(TrendsView(filter), "trends", "TRENDS")
      else if id == "nav-predictions" then ViewUpdate(PredictionsView(filter), "predictions", "PREDICTIONS")
      else ViewUpdate(DashboardView(filter), "dashboard", "OVERVIEW")
  }

  /** `update_view_on_filter_change`: re-render the stored view for the new filter. */
  function UpdateViewOnFilterChange(filter: string, view: string): (c: Content)
    ensures c == Render(view, filter)
  {
    if view == "dashboard" then DashboardView(filter)
    else if view == "trends" then TrendsView(filter)
    else if view == "predictions" then PredictionsView(filter)
    else DashboardView(filter)
  }

  /** What the page holds between callbacks: both stores and the rendered content. */
  datatype Session = Session(view: string, filter: string, content: Content)

  /** The two kinds of user action. */
  datatype Event =
    | NavClick(trigger: Option<string>)
    | FilterClick(trigger: Option<string>)

  /**
   * The page after one action. A filter click writes the filter store, and
   * the view is then re-rendered from it.
   */
  function Step(s: Session, e: Event): Session {
    match e
    case NavClick(t) =>
      var u := UpdateView(t, s.view, s.filter);
      Session(u.view, s.filter, u.content)
    case FilterClick(t) =>
      var f := UpdateCoffeeFilter(t, s.filter);
      Session(s.view, f, UpdateViewOnFilterChange(f, s.view))
  }

  function Run(s: Session, events: seq<Event>): Session
    decreases |events|
  {
    if events == [] then s else Run(Step(s, events[0]), events[1..])
  }

  /** The page on first load: overview, all coffee types. */
  function Initial(): Session {
    Session(InitialView, InitialFilter, Render(InitialView, InitialFilter))
  }

  /**
   * Both stores hold values the buttons can set, and the page shows the
   * stored view rendered for the stored filter.
   */
  predicate Consistent(s: Session) {
    ValidView(s.view) && Recognised(s.filter) && s.content == Render(s.view, s.filter)
  }

  lemma StepPreservesConsistent(s: Session, e: Event)
    requires Consistent(s)
    ensures Consistent(Step(s, e))
  {
  }

  /** Every sequence of clicks from the first load leaves the page consistent. */
  lemma {:induction false} RunPreservesConsistent(s: Session, events: seq<Event>)
    requires Consistent(s)
    ensures Consistent(Run(s, events))
    decreases |events|
  {
    if events != [] {
      StepPreservesConsistent(s, events[0]);
      RunPreservesConsistent(Step(s, events[0]), events[1..]);
    }
  }

  lemma ReachableConsistent(events: seq<Event>)
    ensures Consistent(Run(Initial(), events))
  {
    RunPreservesConsistent(Initial(), events);
  }
}
