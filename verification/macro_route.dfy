/**
 * The macro-indicator proxy of `src/app/api/macro/route.ts`: validate the
 * indicator, answer from the cache, otherwise fetch the configured series
 * from the macro-data provider (newest observation first), shape it into a
 * live value plus the parseable history, and cache that for a day.
 *
 * `parseFloat` is the parameter `parse`, with `None` standing for `NaN`, so
 * the history filter is about which observations parse, not about numbers.
 */
module MacroRoute {
  import opened Wrappers
  import opened Http
  import opened Proxy
  import Cache
  import SearchRoute

  datatype Indicator = Cpi | Gdp | FederalFundsRate | Unemployment

  /** An `indicatorConfig` entry. */
  datatype SeriesConfig = SeriesConfig(seriesId: string, name: string, unit: string)

  /** One provider observation: a date and the value as text. */
  datatype Observation = Observation(date: string, value: string)

  /**
   * How `fetchFredData` ends: an exception with its message (non-OK status or
   * network failure), or a JSON body whose `observations` may be missing.
   */
  datatype FredReply = FredThrew(message: string) | FredData(observations: Option<seq<Observation>>)

  const MacroTtl: int := 24 * 60 * 60 * 1000
  const KeyPrefix: string := "macro_"

  /** The query-string spelling of each indicator, which is also its key in `indicatorConfig`. */
  function Name(i: Indicator): string {
    match i
    case Cpi => "CPI"
    case Gdp => "GDP"
    case FederalFundsRate => "FEDERAL_FUNDS_RATE"
    case Unemployment => "UNEMPLOYMENT"
  }

  const DeclaredNames: set<string> := {"CPI", "GDP", "FEDERAL_FUNDS_RATE", "UNEMPLOYMENT"}

  /** `indicatorConfig`. */
  function Config(i: Indicator): SeriesConfig {
    match i
    case Cpi => SeriesConfig("CPIAUCSL", "CPI", "")
    case Gdp => SeriesConfig("GDPC1", "Real GDP", "B")
    case FederalFundsRate => SeriesConfig("FEDFUNDS", "Interest Rate", "%")
    case Unemployment => SeriesConfig("UNRATE", "Unemployment", "%")
  }

  /** The validation step: exactly the four declared names are accepted. */
  function ParseIndicator(s: Option<string>): (r: Option<Indicator>)
    ensures r.Some? <==> s.Some? && s.value in DeclaredNames
    ensures r.Some? ==> s.value == Name(r.value)
  {
    if s.None? then None
    else
      match s.value
      case "CPI" => Some(Cpi)
      case "GDP" => Some(Gdp)
      case "FEDERAL_FUNDS_RATE" => Some(FederalFundsRate)
      case "UNEMPLOYMENT" => Some(Unemployment)
      case _ => None
  }

  /** The cache key of an indicator. */
  function Key(i: Indicator): string {
    KeyPrefix + Name(i)
  }

  /** `history.map(parse).filter(not NaN)`: the parseable observations with their dates, in order. */
  function Historical(obs: seq<Observation>, parse: string -> Option<real>): (r: seq<Point>)
    ensures |r| <= |obs|
    ensures forall o :: o in obs && parse(o.value).Some? ==> Point(o.date, parse(o.value).value) in r
    ensures forall p :: p in r ==> exists o :: o in obs && o.date == p.date && parse(o.value) == Some(p.value)
    decreases |obs|
  {
    if |obs| == 0 then []
    else
      var rest := Historical(obs[1..], parse);
      assert forall o :: o in obs[1..] ==> o in obs;
      assert forall o :: o in obs ==> o == obs[0] || o in obs[1..];
      match parse(obs[0].value)
      case Some(v) => [Point(obs[0].date, v)] + rest
      case None => rest
  }

  /** The response body built from a non-empty list of observations. */
  function Shape(obs: seq<Observation>, unit: string, parse: string -> Option<real>): (p: Payload)
    requires |obs| > 0
    ensures p.MacroSeries?
    ensures p.live == Live(obs[0].date, parse(obs[0].value), unit)
    ensures p.historical == Historical(obs, parse)
  {
    MacroSeries(Live(obs[0].date, parse(obs[0].value), unit), Historical(obs, parse))
  }

  /**
   * The `GET` handler. `fred` answers a request for a series id; the cache is
   * read once and written at most once.
   */
  function Macro(indicator: Option<string>, cache: Cache.CacheState<Payload>, io: CacheCalls,
                 apiKey: Option<string>, fred: string -> FredReply, parse: string -> Option<real>): (r: Outcome)
    ensures ParseIndicator(indicator).None? ==>
      r == Outcome(Response(BadRequest, ErrorMessage("Invalid or missing 'indicator' query parameter.")), cache)
    ensures ParseIndicator(indicator).Some? ==>
      var i := ParseIndicator(indicator).value;
      var read := Cache.Get(cache, Key(i), io.readAt, io.readFails);
      && (read.value.Some? ==> r == Outcome(Response(Ok, Json(read.value.value)), read.state))
      && (r.response.status == Ok || r.cache == read.state)
      && (read.value.None? && r.response.status == Ok ==>
            r.response.body.Json? &&
            r.cache == Cache.Set(read.state, Key(i), r.response.body.payload, MacroTtl, io.writeAt, io.writeFails))
  {
    match ParseIndicator(indicator)
    case None =>
      Outcome(Response(BadRequest, ErrorMessage("Invalid or missing 'indicator' query parameter.")), cache)
    case Some(i) =>
      var key := Key(i);
      var read := Cache.Get(cache, key, io.readAt, io.readFails);
      if read.value.Some? then
        Outcome(Response(Ok, Json(read.value.value)), read.state)
      else if !Truthy(apiKey) then
        Outcome(Response(InternalError, ErrorMessage("FRED_API_KEY is not set.")), read.state)
      else
        match fred(Config(i).seriesId)
        case FredThrew(message) =>
          Outcome(Response(InternalError, ErrorMessage(OrElse(Some(message), "Internal server error."))), read.state)
        case FredData(observations) =>
          if observations.None? || |observations.value| == 0 then
            Outcome(Response(NotFound, ErrorMessage("No data found for this indicator.")), read.state)
          else
            var payload := Shape(observations.value, Config(i).unit, parse);
            Outcome(Response(Ok, Json(payload)),
                    Cache.Set(read.state, key, payload, MacroTtl, io.writeAt, io.writeFails))
  }

  // ---------------------------------------------------------------------------
  // Properties

  /** Each indicator's name parses back to it, and only its name does. */
  lemma NameRoundTrip(i: Indicator, s: Option<string>)
    ensures ParseIndicator(Some(Name(i))) == Some(i)
    ensures ParseIndicator(s) == Some(i) ==> s == Some(Name(i))
  {
  }

  /** The configuration table: series id and unit of each indicator. */
  lemma ConfigTable()
    ensures Config(Cpi).seriesId == "CPIAUCSL" && Config(Cpi).unit == ""
    ensures Config(Gdp).seriesId == "GDPC1" && Config(Gdp).unit == "B"
    ensures Config(FederalFundsRate).seriesId == "FEDFUNDS" && Config(FederalFundsRate).unit == "%"
    ensures Config(Unemployment).seriesId == "UNRATE" && Config(Unemployment).unit == "%"
    ensures forall i, j :: Config(i).seriesId == Config(j).seriesId ==> i == j
  {
  }

  /** Distinct indicators never share a cache entry. */
  lemma KeysDistinct(i: Indicator, j: Indicator)
    ensures Key(i) == Key(j) <==> i == j
  {
    if Key(i) == Key(j) {
      assert Name(i) == Key(i)[|KeyPrefix|..];
      assert Name(j) == Key(j)[|KeyPrefix|..];
    }
  }

  /** Search and macro keys never collide, so neither route can read the other's entries. */
  lemma KeysDisjointFromSearch(i: Indicator, keywords: string)
    ensures Key(i) != SearchRoute.Key(keywords)
  {
    assert Key(i)[0] == 'm';
    assert SearchRoute.Key(keywords)[0] == 's';
  }

  /** The history of a concatenation is the concatenation of the histories: order is kept. */
  lemma {:induction false} HistoricalAppend(a: seq<Observation>, b: seq<Observation>, parse: string -> Option<real>)
    ensures Historical(a + b, parse) == Historical(a, parse) + Historical(b, parse)
    decreases |a|
  {
    if |a| == 0 {
      assert a + b == b;
    } else {
      assert (a + b)[0] == a[0];
      assert (a + b)[1..] == a[1..] + b;
      HistoricalAppend(a[1..], b, parse);
    }
  }

  /** When every observation parses, the history keeps all of them, index by index. */
  lemma {:induction false} HistoricalAllParse(obs: seq<Observation>, parse: string -> Option<real>)
    requires forall i :: 0 <= i < |obs| ==> parse(obs[i].value).Some?
    ensures |Historical(obs, parse)| == |obs|
    ensures forall i :: 0 <= i < |obs| ==>
      Historical(obs, parse)[i] == Point(obs[i].date, parse(obs[i].value).value)
    decreases |obs|
  {
    if |obs| > 0 {
      HistoricalAllParse(obs[1..], parse);
    }
  }

  /** When no observation parses, the history is empty (the live value is still the first one). */
  lemma {:induction false} HistoricalNoneParse(obs: seq<Observation>, parse: string -> Option<real>)
    requires forall i :: 0 <= i < |obs| ==> parse(obs[i].value).None?
    ensures Historical(obs, parse) == []
    decreases |obs|
  {
    if |obs| > 0 {
      HistoricalNoneParse(obs[1..], parse);
    }
  }

  /** An invalid indicator gets 400 before any cache access; a hit is served without fetching. */
  lemma CacheHitSkipsProvider(indicator: Option<string>, cache: Cache.CacheState<Payload>, io: CacheCalls,
                              apiKey1: Option<string>, fred1: string -> FredReply,
                              apiKey2: Option<string>, fred2: string -> FredReply, parse: string -> Option<real>)
    requires ParseIndicator(indicator).Some?
    requires Cache.Get(cache, Key(ParseIndicator(indicator).value), io.readAt, io.readFails).value.Some?
    ensures Macro(indicator, cache, io, apiKey1, fred1, parse) == Macro(indicator, cache, io, apiKey2, fred2, parse)
  {
  }

  /** No observations: 404 and nothing cached. */
  lemma NoObservationsIsNotFound(i: Indicator, cache: Cache.CacheState<Payload>, io: CacheCalls,
                                 apiKey: Option<string>, fred: string -> FredReply, parse: string -> Option<real>)
    requires Truthy(apiKey)
    requires Cache.Get(cache, Key(i), io.readAt, io.readFails).value.None?
    requires fred(Config(i).seriesId) == FredData(None) || fred(Config(i).seriesId) == FredData(Some([]))
    ensures var r := Macro(Some(Name(i)), cache, io, apiKey, fred, parse);
      r.response.status == NotFound && r.cache == Cache.Get(cache, Key(i), io.readAt, io.readFails).state
  {
    NameRoundTrip(i, Some(Name(i)));
  }

  /**
   * A fetched series answers with the first observation as the live value
   * (carrying the configured unit) and the parseable history, and is cached
   * for a day under the indicator's key.
   */
  lemma FetchedSeriesShape(i: Indicator, cache: Cache.CacheState<Payload>, io: CacheCalls,
                           apiKey: Option<string>, fred: string -> FredReply, parse: string -> Option<real>)
    requires Truthy(apiKey)
    requires Cache.Get(cache, Key(i), io.readAt, io.readFails).value.None?
    requires fred(Config(i).seriesId).FredData?
    requires fred(Config(i).seriesId).observations.Some? && |fred(Config(i).seriesId).observations.value| > 0
    ensures var obs := fred(Config(i).seriesId).observations.value;
      var r := Macro(Some(Name(i)), cache, io, apiKey, fred, parse);
      && r.response.status == Ok
      && r.response.body == Json(MacroSeries(Live(obs[0].date, parse(obs[0].value), Config(i).unit), Historical(obs, parse)))
      && r.cache == Cache.Set(Cache.Get(cache, Key(i), io.readAt, io.readFails).state, Key(i),
                              r.response.body.payload, MacroTtl, io.writeAt, io.writeFails)
  {
    NameRoundTrip(i, Some(Name(i)));
  }

  /** A missing or empty API key or a provider exception is a 500 and caches nothing. */
  lemma ErrorsNotCached(i: Indicator, cache: Cache.CacheState<Payload>, io: CacheCalls,
                        apiKey: Option<string>, fred: string -> FredReply, parse: string -> Option<real>)
    requires Cache.Get(cache, Key(i), io.readAt, io.readFails).value.None?
    requires !Truthy(apiKey) || fred(Config(i).seriesId).FredThrew?
    ensures var r := Macro(Some(Name(i)), cache, io, apiKey, fred, parse);
      r.response.status == InternalError && r.cache == Cache.Get(cache, Key(i), io.readAt, io.readFails).state
  {
    NameRoundTrip(i, Some(Name(i)));
  }

  // ---------------------------------------------------------------------------
  // The validation as written

  /** Names every plain JavaScript object inherits, each a truthy function or object. */
  const InheritedNames: set<string> := {
    "constructor", "hasOwnProperty", "isPrototypeOf", "propertyIsEnumerable",
    "toLocaleString", "toString", "valueOf", "__proto__",
    "__defineGetter__", "__defineSetter__", "__lookupGetter__", "__lookupSetter__"}

  /**
   * `!indicator || !indicatorConfig[indicator]` negated, as the source writes
   * it: a plain-object lookup, so inherited names pass too.
   */
  predicate AcceptedAsWritten(s: Option<string>) {
    Truthy(s) && (s.value in DeclaredNames || s.value in InheritedNames)
  }

  /**
   * Every inherited name, `constructor` among them, passes the written check
   * but names no indicator; the corrected handler answers it with 400.
   */
  lemma InheritedNamePassesValidation()
    ensures forall n :: n in InheritedNames ==> AcceptedAsWritten(Some(n)) && ParseIndicator(Some(n)).None?
    ensures AcceptedAsWritten(Some("constructor"))
    ensures Macro(Some("constructor"), Cache.Init(None, map[]), CacheCalls(0, false, 0, false),
                  None, _ => FredThrew(""), _ => None).response.status == BadRequest
  {
  }
}
