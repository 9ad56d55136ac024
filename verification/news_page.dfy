/**
 * The pagination state of the news page, `src/app/news/page.tsx`: the
 * selected theme, the current page, the last load's results, and the
 * Previous / Next / theme buttons. Rendering is not modelled; only what
 * decides which buttons exist and what their handlers do.
 */
module NewsPage {
  import opened Wrappers
  import NewsRoute

  const PageSize: int := 10

  /** The theme buttons, in display order; the first is selected initially. */
  const Themes: seq<string> := ["general", "political", "geopolitical", "business", "technology", "economics"]

  datatype PageState<A> = PageState(
    theme: string,
    page: int,
    articles: seq<A>,
    totalResults: int,
    loading: bool,
    failed: bool)

  /** What can happen to the page: a button click or the progress of a load. */
  datatype Event<A> =
    | ThemeClicked(theme: string)
    | PreviousClicked
    | NextClicked
    | LoadStarted
    | LoadSucceeded(articles: seq<A>, totalResults: int)
    | LoadFailed

  function Initial<A>(): (s: PageState<A>)
    ensures s.theme == Themes[0] && s.page == 1 && s.totalResults == 0
  {
    PageState(Themes[0], 1, [], 0, false, false)
  }

  /** `Math.ceil(totalResults / NEWS_PAGE_SIZE)`: the fewest pages that hold every result. */
  function TotalPages(totalResults: int): (n: int)
    ensures n * PageSize >= totalResults
    ensures (n - 1) * PageSize < totalResults
  {
    -((-totalResults) / PageSize)
  }

  /** The Previous / Next controls are rendered only when loaded and there is more than one page. */
  predicate ControlsShown<A>(s: PageState<A>) {
    !s.loading && TotalPages(s.totalResults) > 1
  }

  predicate PreviousDisabled<A>(s: PageState<A>) {
    s.page == 1
  }

  predicate NextDisabled<A>(s: PageState<A>) {
    s.page == TotalPages(s.totalResults)
  }

  predicate InRange<A>(s: PageState<A>) {
    1 <= s.page <= TotalPages(s.totalResults)
  }

  /** The Previous handler: one page back, never below page 1. */
  function Previous<A>(s: PageState<A>): (r: PageState<A>)
    ensures r == s.(page := r.page)
    ensures r.page >= 1
    ensures s.page > 1 ==> r.page == s.page - 1
    ensures s.page <= 1 ==> r.page == 1
  {
    s.(page := if 1 > s.page - 1 then 1 else s.page - 1)
  }

  /** The Next handler: one page on, never past the last page. */
  function Next<A>(s: PageState<A>): (r: PageState<A>)
    ensures r == s.(page := r.page)
    ensures r.page <= TotalPages(s.totalResults)
    ensures s.page < TotalPages(s.totalResults) ==> r.page == s.page + 1
    ensures s.page >= TotalPages(s.totalResults) ==> r.page == TotalPages(s.totalResults)
  {
    var last := TotalPages(s.totalResults);
    s.(page := if last < s.page + 1 then last else s.page + 1)
  }

  /** A theme button: select the theme and go back to page 1. */
  function SelectTheme<A>(s: PageState<A>, theme: string): (r: PageState<A>)
    ensures r.theme == theme && r.page == 1
    ensures r.articles == s.articles && r.totalResults == s.totalResults && r.loading == s.loading
  {
    s.(theme := theme, page := 1)
  }

  /** The reaction to one event; clicks on a hidden or disabled button do nothing. */
  function Dispatch<A>(s: PageState<A>, e: Event<A>): (r: PageState<A>)
    ensures e.PreviousClicked? || e.NextClicked? ==> r.totalResults == s.totalResults && r.theme == s.theme
    ensures e.LoadFailed? ==> r.articles == [] && r.totalResults == 0 && !r.loading && r.failed
    ensures e.LoadSucceeded? ==> r.articles == e.articles && r.totalResults == e.totalResults && !r.loading
  {
    match e
    case ThemeClicked(t) => SelectTheme(s, t)
    case PreviousClicked => if ControlsShown(s) && !PreviousDisabled(s) then Previous(s) else s
    case NextClicked => if ControlsShown(s) && !NextDisabled(s) then Next(s) else s
    case LoadStarted => s.(loading := true, failed := false)
    case LoadSucceeded(articles, total) => s.(articles := articles, totalResults := total, loading := false)
    case LoadFailed => s.(articles := [], totalResults := 0, loading := false, failed := true)
  }

  function Run<A>(s: PageState<A>, events: seq<Event<A>>): PageState<A>
    decreases |events|
  {
    if |events| == 0 then s else Run(Dispatch(s, events[0]), events[1..])
  }

  /** The Previous/Next handlers applied in order, whether or not the buttons are shown. */
  function Clicks<A>(s: PageState<A>, forward: seq<bool>): PageState<A>
    decreases |forward|
  {
    if |forward| == 0 then s else Clicks(if forward[0] then Next(s) else Previous(s), forward[1..])
  }

  // ---------------------------------------------------------------------------
  // Properties

  /** Exact counts: 0 results give no page, 1 to 10 one page, 11 to 20 two pages. */
  lemma TotalPagesExamples()
    ensures TotalPages(0) == 0 && TotalPages(1) == 1 && TotalPages(10) == 1
    ensures TotalPages(11) == 2 && TotalPages(20) == 2 && TotalPages(21) == 3
  {
  }

  /** Page counts grow with the number of results. */
  lemma TotalPagesMonotone(a: int, b: int)
    requires a <= b
    ensures TotalPages(a) <= TotalPages(b)
  {
  }

  /** From a page in range, any sequence of Previous/Next handlers stays in range. */
  lemma {:induction false} ClicksStayInRange<A>(s: PageState<A>, forward: seq<bool>)
    requires InRange(s)
    ensures InRange(Clicks(s, forward))
    ensures Clicks(s, forward).totalResults == s.totalResults
    decreases |forward|
  {
    if |forward| > 0 {
      ClicksStayInRange(if forward[0] then Next(s) else Previous(s), forward[1..]);
    }
  }

  /** Whatever happens on the page, the current page never drops below 1. */
  lemma {:induction false} PageStaysPositive<A>(s: PageState<A>, events: seq<Event<A>>)
    requires s.page >= 1
    ensures Run(s, events).page >= 1
    decreases |events|
  {
    if |events| > 0 {
      PageStaysPositive(Dispatch(s, events[0]), events[1..]);
    }
  }

  /**
   * From a page in 1..pages, an enabled Next moves exactly one page on and an
   * enabled Previous exactly one page back. Outside that range this fails:
   * see `NextPastLastLandsOnLast`.
   */
  lemma EnabledClicksMoveOnePage<A>(s: PageState<A>)
    requires ControlsShown(s) && InRange(s)
    ensures !NextDisabled(s) ==> Dispatch(s, NextClicked).page == s.page + 1
    ensures !PreviousDisabled(s) ==> Dispatch(s, PreviousClicked).page == s.page - 1
  {
  }

  /**
   * A load never re-clamps the page, so a smaller total can leave it past the
   * last page; Next is then enabled and jumps back to the last page, possibly
   * several pages at once (page 5 with 25 results, say, after an
   * earlier load of more).
   */
  lemma NextPastLastLandsOnLast<A>(s: PageState<A>, articles: seq<A>, total: int)
    ensures Dispatch(s, LoadSucceeded(articles, total)).page == s.page
    ensures ControlsShown(s) && s.page > TotalPages(s.totalResults) ==>
      !NextDisabled(s) && Dispatch(s, NextClicked).page == TotalPages(s.totalResults) < s.page
    ensures Dispatch(PageState("general", 5, articles, 25, false, false), NextClicked).page == 3
  {
  }

  /** Disabled buttons sit exactly at the ends of the range. */
  lemma DisabledAtEnds<A>(s: PageState<A>)
    requires InRange(s)
    ensures PreviousDisabled(s) <==> Previous(s) == s
    ensures NextDisabled(s) <==> Next(s) == s
  {
  }

  /** A failed load hides the controls: no results means at most one page. */
  lemma FailureHidesControls<A>(s: PageState<A>)
    ensures !ControlsShown(Dispatch(s, LoadFailed))
    ensures TotalPages(Dispatch(s, LoadFailed).totalResults) == 0
  {
  }

  /**
   * What the news route makes of each theme button, asked for with the page
   * size and sort order the page sends: `general` falls through to the
   * general headlines.
   */
  lemma ThemesReachEndpoints(page: string, apiKey: Option<string>)
    requires apiKey.Some? && apiKey.value != ""
    ensures forall t :: t in Themes ==>
      var d := NewsRoute.Decide(NewsRoute.Params(Some(t), None, None, Some(page), Some("10"), Some("popularity")), apiKey);
      d.Fetch? && d.request.pageSize == "10" && d.request.sortBy == "popularity" &&
      d.request.endpoint == NewsRoute.ThemeEndpoint(t)
    ensures NewsRoute.ThemeEndpoint("general") == NewsRoute.TopHeadlines("general")
  {
  }
}
