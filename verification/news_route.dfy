/**
 * The news proxy route of `src/app/api/news/route.ts`: from the query
 * parameters it decides which news-provider endpoint to call, with which
 * category or search term, and forwards the provider's answer.
 *
 * The decision is the `Request` datatype; the provider URL is a rendering of
 * it (`Url`).
 */
module NewsRoute {
  import opened Wrappers
  import opened Http

  /** The query parameters the route reads (`null` when absent). */
  datatype Params = Params(
    theme: Option<string>,
    category: Option<string>,
    q: Option<string>,
    page: Option<string>,
    pageSize: Option<string>,
    sortBy: Option<string>)

  /** The two provider endpoints, with the category or search term each is given. */
  datatype Endpoint = TopHeadlines(category: string) | Everything(q: string)

  /** A provider request: endpoint plus the parameters every branch sends. */
  datatype Request = Request(endpoint: Endpoint, language: string, pageSize: string, page: string, sortBy: string)

  /** The route either refuses (no API key) or fetches one request. */
  datatype Decision = MissingApiKey | Fetch(request: Request)

  /** How the provider call ends. */
  datatype Reply<D> =
    | ProviderOk(data: D)
    | ProviderNotOk(status: int, message: Option<string>)
    | ProviderThrew

  const DefaultPage: string := "1"
  const DefaultPageSize: string := "10"
  const DefaultSortBy: string := "popularity"
  const Language: string := "en"
  const GeneralCategory: string := "general"

  /** The endpoint a non-empty theme selects. */
  function ThemeEndpoint(theme: string): (e: Endpoint)
    ensures theme == "business" || theme == "technology" ==> e == TopHeadlines(theme)
    ensures theme == "political" ==> e == Everything("politics")
    ensures theme == "geopolitical" ==> e == Everything("geopolitics")
    ensures theme == "economics" ==> e == Everything("economics")
    ensures theme !in {"business", "technology", "political", "geopolitical", "economics"} ==>
      e == TopHeadlines(GeneralCategory)
  {
    match theme
    case "business" => TopHeadlines(theme)
    case "technology" => TopHeadlines(theme)
    case "political" => Everything("politics")
    case "geopolitical" => Everything("geopolitics")
    case "economics" => Everything("economics")
    case _ => TopHeadlines(GeneralCategory)
  }

  /**
   * The endpoint for the request: a non-empty theme wins; without one, a
   * category other than `general` wins; then a non-empty `q`; otherwise the
   * general headlines.
   */
  function ChooseEndpoint(p: Params): (e: Endpoint)
  {
    if Truthy(p.theme) then ThemeEndpoint(p.theme.value)
    else if Truthy(p.category) && p.category.value != GeneralCategory then TopHeadlines(p.category.value)
    else if Truthy(p.q) then Everything(p.q.value)
    else TopHeadlines(GeneralCategory)
  }

  /** The `GET` handler's decision, before any provider call. */
  function Decide(p: Params, apiKey: Option<string>): (d: Decision)
    ensures d.MissingApiKey? <==> !Truthy(apiKey)
    ensures d.Fetch? ==> d.request.endpoint == ChooseEndpoint(p) && d.request.language == Language
    ensures d.Fetch? ==> d.request.page == OrElse(p.page, DefaultPage)
    ensures d.Fetch? ==> d.request.pageSize == OrElse(p.pageSize, DefaultPageSize)
    ensures d.Fetch? ==> d.request.sortBy == OrElse(p.sortBy, DefaultSortBy)
  {
    if !Truthy(apiKey) then MissingApiKey
    else
      Fetch(Request(
        ChooseEndpoint(p),
        Language,
        OrElse(p.pageSize, DefaultPageSize),
        OrElse(p.page, DefaultPage),
        OrElse(p.sortBy, DefaultSortBy)))
  }

  /** The whole handler: decision, then the provider's answer forwarded. */
  function Handle<D>(p: Params, apiKey: Option<string>, reply: Reply<D>): (r: Response<D>)
    ensures !Truthy(apiKey) ==> r == Response(InternalError, ErrorMessage("News API key not configured."))
    ensures Truthy(apiKey) && reply.ProviderOk? ==> r == Response(Ok, Json(reply.data))
    ensures Truthy(apiKey) && reply.ProviderNotOk? ==> r.status == reply.status && r.body.ErrorMessage?
    ensures Truthy(apiKey) && reply.ProviderThrew? ==> r.status == InternalError
  {
    match Decide(p, apiKey)
    case MissingApiKey => Response(InternalError, ErrorMessage("News API key not configured."))
    case Fetch(_) =>
      match reply
      case ProviderOk(data) => Response(Ok, Json(data))
      case ProviderNotOk(status, message) =>
        Response(status, ErrorMessage(OrElse(message, "Failed to fetch news from external API.")))
      case ProviderThrew => Response(InternalError, ErrorMessage("Internal server error contacting NewsAPI."))
  }

  const BaseUrl: string := "https://newsapi.org/v2/"

  /** The endpoint part of the provider URL, up to and including the `?`. */
  function EndpointPath(e: Endpoint): string {
    match e
    case TopHeadlines(_) => BaseUrl + "top-headlines?"
    case Everything(_) => BaseUrl + "everything?"
  }

  /** The provider URL the request is rendered as. */
  function Url(r: Request, apiKey: string): string {
    EndpointPath(r.endpoint) + QueryString(r, apiKey)
  }

  /** The query string: the category or search term first, then the common parameters. */
  function QueryString(r: Request, apiKey: string): string {
    (match r.endpoint
     case TopHeadlines(c) => "category=" + c
     case Everything(q) => "q=" + q)
    + "&language=" + r.language + "&pageSize=" + r.pageSize + "&page=" + r.page
    + "&sortBy=" + r.sortBy + "&apiKey=" + apiKey
  }

  // ---------------------------------------------------------------------------
  // Properties of the decision

  /** A missing or empty key refuses with 500 whatever the parameters or provider would do. */
  lemma MissingKeyRefusesFirst<D>(p: Params, apiKey: Option<string>, reply: Reply<D>)
    requires !Truthy(apiKey)
    ensures Decide(p, apiKey) == MissingApiKey
    ensures Handle(p, apiKey, reply).status == InternalError
  {
  }

  /** With a non-empty theme, `category` and `q` are ignored. */
  lemma ThemeTakesPrecedence(p: Params, category: Option<string>, q: Option<string>)
    requires Truthy(p.theme)
    ensures ChooseEndpoint(p.(category := category, q := q)) == ChooseEndpoint(p)
    ensures ChooseEndpoint(p) == ThemeEndpoint(p.theme.value)
  {
  }

  /** An empty theme behaves exactly like an absent one. */
  lemma EmptyThemeIsAbsent(p: Params)
    requires p.theme == Some("")
    ensures ChooseEndpoint(p) == ChooseEndpoint(p.(theme := None))
  {
  }

  /** The precedence without a theme: a non-general category, then `q`, then general headlines. */
  lemma NoThemeFallbacks(p: Params)
    requires !Truthy(p.theme)
    ensures Truthy(p.category) && p.category.value != GeneralCategory ==>
      ChooseEndpoint(p) == TopHeadlines(p.category.value)
    ensures !(Truthy(p.category) && p.category.value != GeneralCategory) && Truthy(p.q) ==>
      ChooseEndpoint(p) == Everything(p.q.value)
    ensures !(Truthy(p.category) && p.category.value != GeneralCategory) && !Truthy(p.q) ==>
      ChooseEndpoint(p) == TopHeadlines(GeneralCategory)
  {
  }

  /** Search-term requests arise only from a theme or from a non-empty `q`, never from a category. */
  lemma EverythingOnlyFromThemeOrQuery(p: Params)
    requires ChooseEndpoint(p).Everything?
    ensures Truthy(p.theme) || (Truthy(p.q) && ChooseEndpoint(p).q == p.q.value)
  {
  }

  /** Every theme endpoint is well formed: a headline category is never empty, nor a search term. */
  lemma ThemeEndpointNonEmpty(theme: string)
    ensures ThemeEndpoint(theme).TopHeadlines? ==> ThemeEndpoint(theme).category != ""
    ensures ThemeEndpoint(theme).Everything? ==> ThemeEndpoint(theme).q != ""
  {
  }

  /** The rendered URL names the endpoint the decision chose, and no other. */
  lemma UrlNamesEndpoint(r: Request, apiKey: string)
    ensures r.endpoint.TopHeadlines? ==> BaseUrl + "top-headlines?" <= Url(r, apiKey)
    ensures r.endpoint.Everything? ==> BaseUrl + "everything?" <= Url(r, apiKey)
    ensures r.endpoint.TopHeadlines? ==> !(BaseUrl + "everything?" <= Url(r, apiKey))
    ensures r.endpoint.Everything? ==> !(BaseUrl + "top-headlines?" <= Url(r, apiKey))
  {
    var u := Url(r, apiKey);
    var p := EndpointPath(r.endpoint);
    assert u[..|p|] == p;
    var at := |BaseUrl|;
    assert u[at] == p[at];
  }
}
