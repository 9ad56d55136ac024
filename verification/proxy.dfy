/**
 * What the cached proxy routes share: the values they put in the
 * process-wide cache and return as JSON, and the cache calls one request makes.
 */
module Proxy {
  import opened Wrappers
  import opened Http
  import Cache

  /** One search hit in the shape the front end uses. */
  datatype NormalizedResult = NormalizedResult(symbol: string, name: string, kind: string)

  /** One parseable observation of a macro series. */
  datatype Point = Point(date: string, value: real)

  /** The newest observation; `value` is `None` where `parseFloat` gives `NaN`. */
  datatype Live = Live(date: string, value: Option<real>, unit: string)

  /** A cached (and returned) JSON value of the search or macro route. */
  datatype Payload =
    | SearchHits(hits: seq<NormalizedResult>)
    | MacroSeries(live: Live, historical: seq<Point>)

  /**
   * The environment of the one `getCache` and (at most) one `setCache` a
   * request makes: the clock at each and whether the remote store fails it.
   */
  datatype CacheCalls = CacheCalls(readAt: int, readFails: bool, writeAt: int, writeFails: bool)

  /** A handler's response and the cache state it leaves behind. */
  datatype Outcome = Outcome(response: Response<Payload>, cache: Cache.CacheState<Payload>)
}
