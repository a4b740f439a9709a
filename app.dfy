/**
 * The page routing of `app.py` and the buttons that change which ticker is
 * selected: `selected_stock` in the session state is None on the home grid and
 * a ticker on that ticker's analysis page.
 */
module App {
  import opened Wrappers
  import opened Text

  datatype View = HomeGrid | AnalysisView(ticker: string)

  /**
   * The main routing: exactly one view per run, the grid when nothing is
   * selected and otherwise the analysis of the selected ticker.
   */
  function Route(selected: Option<string>): (v: View)
    ensures v == HomeGrid <==> selected.None?
    ensures selected.Some? ==> v == AnalysisView(selected.value)
  {
    match selected
    case None => HomeGrid
    case Some(t) => AnalysisView(t)
  }

  datatype Event =
    | AnalyzeClicked(ticker: string)   // a card's "Analyze <ticker>" button
    | SearchClicked(input: string)     // "Search Custom Ticker", with the text box's content
    | BackClicked                      // "← Back" on the analysis page

  /**
   * The selection after a button press. It ends up empty only through Back or
   * an empty search while nothing was selected, and an empty search never
   * changes it.
   */
  function Next(selected: Option<string>, e: Event): (n: Option<string>)
    ensures n.None? <==> e.BackClicked? || (e == SearchClicked("") && selected.None?)
    ensures e == SearchClicked("") ==> n == selected
  {
    match e
    case AnalyzeClicked(t) => Some(t)
    case SearchClicked(input) => if input != "" then Some(Upper(input)) else selected
    case BackClicked => None
  }

  /** The buttons that exist on the page being shown. */
  predicate Enabled(selected: Option<string>, e: Event)
  {
    if e.BackClicked? then Route(selected).AnalysisView? else Route(selected) == HomeGrid
  }

  /** Only Back takes a selection away. */
  lemma OnlyBackClears(selected: Option<string>, e: Event)
    requires selected.Some? && Next(selected, e).None?
    ensures e == BackClicked
  {
  }

  /**
   * A card button selects its ticker unchanged; a search selects the input
   * upper-cased, letter for letter, and an empty search changes nothing.
   */
  lemma SelectionTransitions(selected: Option<string>, e: Event)
    ensures e.AnalyzeClicked? ==> Next(selected, e) == Some(e.ticker)
    ensures e.SearchClicked? && e.input == "" ==> Next(selected, e) == selected
    ensures e.SearchClicked? && e.input != "" ==>
      && Next(selected, e) == Some(Upper(e.input))
      && |Next(selected, e).value| == |e.input|
      && (forall i :: 0 <= i < |e.input| ==> !IsLowerAscii(Next(selected, e).value[i]))
      && Next(selected, Event.SearchClicked(Next(selected, e).value)) == Next(selected, e)
  {
    if e.SearchClicked? && e.input != "" {
      UpperIdempotent(e.input);
    }
  }

  /**
   * From the page where it is offered, every button but an empty search
   * switches views: the grid's buttons open the analysis, Back returns to the grid.
   */
  lemma EnabledEventsSwitchView(selected: Option<string>, e: Event)
    requires Enabled(selected, e)
    ensures e.BackClicked? ==> Route(selected).AnalysisView? && Route(Next(selected, e)) == HomeGrid
    ensures e.AnalyzeClicked? ==> Route(selected) == HomeGrid && Route(Next(selected, e)) == AnalysisView(e.ticker)
    ensures e.SearchClicked? && e.input != "" ==>
      Route(selected) == HomeGrid && Route(Next(selected, e)) == AnalysisView(Upper(e.input))
    ensures e.SearchClicked? && e.input == "" ==> Route(Next(selected, e)) == HomeGrid
  {
  }

  /** `st.session_state` as far as the selection goes. */
  class SessionState {
    /** Whether the key `selected_stock` exists yet. */
    var hasSelection: bool
    var selectedStock: Option<string>

    /** A new browser session: the key is absent. */
    constructor ()
      ensures !hasSelection
    {
      hasSelection := false;
      selectedStock := None;
    }

    /** app.py's initialisation: set to None only when absent, so a selection survives a rerun. */
    method InitSelection()
      modifies this
      ensures hasSelection
      ensures selectedStock == if old(hasSelection) then old(selectedStock) else None
    {
      if !hasSelection {
        hasSelection := true;
        selectedStock := None;
      }
    }

    /** The view the routing picks for the current selection. */
    function CurrentView(): (v: View)
      reads this
      requires hasSelection
      ensures v == HomeGrid <==> selectedStock.None?
    {
      Route(selectedStock)
    }

    /** One run of the script: initialise, then route. */
    method Run() returns (v: View)
      modifies this
      ensures hasSelection
      ensures selectedStock == if old(hasSelection) then old(selectedStock) else None
      ensures v == Route(selectedStock)
    {
      InitSelection();
      v := CurrentView();
    }

    /** "Analyze <ticker>" on a card. */
    method Analyze(ticker: string)
      requires hasSelection
      modifies this
      ensures hasSelection && selectedStock == Next(old(selectedStock), AnalyzeClicked(ticker))
    {
      selectedStock := Some(ticker);
    }

    /** "Search Custom Ticker" with the text box's content. */
    method Search(input: string)
      requires hasSelection
      modifies this
      ensures hasSelection && selectedStock == Next(old(selectedStock), SearchClicked(input))
    {
      if input != "" {
        selectedStock := Some(Upper(input));
      }
    }

    /** "← Back" on the analysis page. */
    method Back()
      requires hasSelection
      modifies this
      ensures hasSelection && selectedStock == Next(old(selectedStock), BackClicked)
    {
      selectedStock := None;
    }
  }

  /** A session: the grid first, a lower-case search opens the upper-cased ticker, Back returns. */
  method SessionWalkthrough()
  {
    var session := new SessionState();
    var v := session.Run();
    assert v == HomeGrid;
    session.Search("tsla");
    v := session.Run();
    assert Upper("tsla") == "TSLA";
    assert v == AnalysisView("TSLA");
    v := session.Run();
    assert v == AnalysisView("TSLA");
    session.Back();
    v := session.Run();
    assert v == HomeGrid;
  }
}
