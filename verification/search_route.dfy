/**
 * The symbol-search proxy of `src/app/api/stocks/search/route.ts`:
 * validate the keywords, answer from the cache under a case-insensitive key,
 * otherwise ask the quotes provider, normalise its hits and cache them for an
 * hour when there are any.
 */
module SearchRoute {
  import opened Wrappers
  import opened Http
  import opened Proxy
  import Cache

  /** One hit as the provider sends it (`type` is a reserved word here, hence `kind`). */
  datatype FinnhubResult = FinnhubResult(description: string, displaySymbol: string, symbol: string, kind: string)

  /**
   * How the provider call ends: a non-OK status, an empty body, a parsed body
   * whose `result` may be missing, or an exception (network or JSON).
   */
  datatype FinnhubReply =
    | HttpError(status: int, statusText: string)
    | EmptyBody
    | Parsed(result: Option<seq<FinnhubResult>>)
    | Threw

  const SearchTtl: int := 60 * 60 * 1000
  const KeyPrefix: string := "stock_search_"

  /** `toLowerCase`, on the ASCII letters. */
  function LowerChar(c: char): char {
    if 'A' <= c <= 'Z' then (c as int + 32) as char else c
  }

  function Lower(s: string): (r: string)
    ensures |r| == |s|
    ensures forall i :: 0 <= i < |s| ==> r[i] == LowerChar(s[i])
  {
    seq(|s|, i requires 0 <= i < |s| => LowerChar(s[i]))
  }

  /** The cache key of a search. */
  function Key(keywords: string): string {
    KeyPrefix + Lower(keywords)
  }

  /** `normalizeSearchResults`: each hit renamed field by field, order and length kept. */
  function Normalize(results: seq<FinnhubResult>): (r: seq<NormalizedResult>)
    ensures |r| == |results|
    ensures forall i :: 0 <= i < |results| ==>
      r[i].symbol == results[i].symbol && r[i].name == results[i].description && r[i].kind == results[i].kind
  {
    seq(|results|, i requires 0 <= i < |results| =>
      NormalizedResult(results[i].symbol, results[i].description, results[i].kind))
  }

  /**
   * The `GET` handler. `provider` answers the search for the keywords as
   * typed; the cache is read once and written at most once.
   */
  function Search(keywords: Option<string>, cache: Cache.CacheState<Payload>, io: CacheCalls,
                  apiKey: Option<string>, provider: string -> FinnhubReply): (r: Outcome)
    ensures !Truthy(keywords) ==>
      r == Outcome(Response(BadRequest, ErrorMessage("Missing 'keywords' query parameter.")), cache)
    ensures Truthy(keywords) ==>
      var read := Cache.Get(cache, Key(keywords.value), io.readAt, io.readFails);
      && (read.value.Some? ==> r == Outcome(Response(Ok, Json(read.value.value)), read.state))
      && (r.cache == read.state ||
          exists hits: seq<NormalizedResult> ::
            && |hits| > 0
            && r.response == Response(Ok, Json(SearchHits(hits)))
            && r.cache == Cache.Set(read.state, Key(keywords.value), SearchHits(hits), SearchTtl, io.writeAt, io.writeFails))
      && (read.value.None? && !Truthy(apiKey) ==>
            r.response.status == InternalError && r.response.body.ErrorMessage? && r.cache == read.state)
      && (read.value.None? && Truthy(apiKey) && provider(keywords.value).Threw? ==>
            r.response.status == InternalError && r.response.body.ErrorMessage? && r.cache == read.state)
      && (read.value.None? && Truthy(apiKey) && provider(keywords.value).Parsed? &&
          provider(keywords.value).result.Some? && |provider(keywords.value).result.value| > 0 ==>
            var hits := Normalize(provider(keywords.value).result.value);
            r == Outcome(Response(Ok, Json(SearchHits(hits))),
                         Cache.Set(read.state, Key(keywords.value), SearchHits(hits), SearchTtl, io.writeAt, io.writeFails)))
  {
    if !Truthy(keywords) then
      Outcome(Response(BadRequest, ErrorMessage("Missing 'keywords' query parameter.")), cache)
    else
      var key := Key(keywords.value);
      var read := Cache.Get(cache, key, io.readAt, io.readFails);
      if read.value.Some? then
        Outcome(Response(Ok, Json(read.value.value)), read.state)
      else if !Truthy(apiKey) then
        Outcome(Response(InternalError, ErrorMessage("Finnhub API key not configured.")), read.state)
      else
        match provider(keywords.value)
        case HttpError(status, text) =>
          Outcome(Response(status, ErrorMessage("Failed to fetch from Finnhub: " + text)), read.state)
        case EmptyBody => Outcome(Response(Ok, Json(SearchHits([]))), read.state)
        case Parsed(result) =>
          if result.None? || |result.value| == 0 then
            Outcome(Response(Ok, Json(SearchHits([]))), read.state)
          else
            var hits := Normalize(result.value);
            Outcome(Response(Ok, Json(SearchHits(hits))),
                    Cache.Set(read.state, key, SearchHits(hits), SearchTtl, io.writeAt, io.writeFails))
        case Threw => Outcome(Response(InternalError, ErrorMessage("Internal server error.")), read.state)
  }

  // ---------------------------------------------------------------------------
  // Properties

  /** Two searches share a cache entry exactly when their keywords agree up to letter case. */
  lemma KeyIgnoresCase(a: string, b: string)
    ensures Key(a) == Key(b) <==> Lower(a) == Lower(b)
  {
    if Key(a) == Key(b) {
      assert Lower(a) == Key(a)[|KeyPrefix|..];
      assert Lower(b) == Key(b)[|KeyPrefix|..];
    }
  }

  /** Normalising a concatenation normalises each part: order is kept. */
  lemma NormalizeAppend(a: seq<FinnhubResult>, b: seq<FinnhubResult>)
    ensures Normalize(a + b) == Normalize(a) + Normalize(b)
  {
  }

  /** On a cache hit neither the API key nor the provider matters. */
  lemma CacheHitSkipsProvider(keywords: Option<string>, cache: Cache.CacheState<Payload>, io: CacheCalls,
                              apiKey1: Option<string>, provider1: string -> FinnhubReply,
                              apiKey2: Option<string>, provider2: string -> FinnhubReply)
    requires Truthy(keywords)
    requires Cache.Get(cache, Key(keywords.value), io.readAt, io.readFails).value.Some?
    ensures Search(keywords, cache, io, apiKey1, provider1) == Search(keywords, cache, io, apiKey2, provider2)
  {
  }

  /** Missing keywords: 400, and the cache is neither read nor written. */
  lemma MissingKeywordsTouchNothing(keywords: Option<string>, cache: Cache.CacheState<Payload>, io: CacheCalls,
                                    apiKey: Option<string>, provider: string -> FinnhubReply)
    requires !Truthy(keywords)
    ensures Search(keywords, cache, io, apiKey, provider).response.status == BadRequest
    ensures Search(keywords, cache, io, apiKey, provider).cache == cache
  {
  }

  /** Empty answers (no body, no `result`, an empty `result`) return `[]` and are not cached. */
  lemma EmptyResultsNotCached(keywords: Option<string>, cache: Cache.CacheState<Payload>, io: CacheCalls,
                              apiKey: Option<string>, provider: string -> FinnhubReply)
    requires Truthy(keywords) && Truthy(apiKey)
    requires Cache.Get(cache, Key(keywords.value), io.readAt, io.readFails).value.None?
    requires provider(keywords.value) == EmptyBody || provider(keywords.value) == Parsed(None)
          || provider(keywords.value) == Parsed(Some([]))
    ensures var r := Search(keywords, cache, io, apiKey, provider);
      r.response == Response(Ok, Json(SearchHits([]))) &&
      r.cache == Cache.Get(cache, Key(keywords.value), io.readAt, io.readFails).state
  {
  }

  /** A provider error status is passed through and nothing is cached. */
  lemma ProviderErrorPassedThrough(keywords: Option<string>, cache: Cache.CacheState<Payload>, io: CacheCalls,
                                   apiKey: Option<string>, provider: string -> FinnhubReply)
    requires Truthy(keywords) && Truthy(apiKey)
    requires Cache.Get(cache, Key(keywords.value), io.readAt, io.readFails).value.None?
    requires provider(keywords.value).HttpError?
    ensures var r := Search(keywords, cache, io, apiKey, provider);
      r.response.status == provider(keywords.value).status && r.response.body.ErrorMessage? &&
      r.cache == Cache.Get(cache, Key(keywords.value), io.readAt, io.readFails).state
  {
  }

  /**
   * Read-through: in memory mode, a successful search is answered from the
   * cache by any later search whose keywords differ only in case, within the
   * hour, whatever the provider then says and even with no API key.
   */
  lemma {:induction false} SearchIsReadThrough(kw1: string, kw2: string, cache: Cache.CacheState<Payload>,
                                               io1: CacheCalls, apiKey1: Option<string>, provider1: string -> FinnhubReply,
                                               io2: CacheCalls, apiKey2: Option<string>, provider2: string -> FinnhubReply)
    requires !cache.remoteEnabled
    requires kw1 != "" && Lower(kw1) == Lower(kw2)
    requires Cache.Lookup(cache.mem, Key(kw1), io1.readAt).None?
    requires Truthy(apiKey1)
    requires provider1(kw1).Parsed? && provider1(kw1).result.Some? && |provider1(kw1).result.value| > 0
    requires io1.writeAt <= io2.readAt < io1.writeAt + SearchTtl
    ensures var first := Search(Some(kw1), cache, io1, apiKey1, provider1);
      first.response == Response(Ok, Json(SearchHits(Normalize(provider1(kw1).result.value)))) &&
      Search(Some(kw2), first.cache, io2, apiKey2, provider2).response == first.response
  {
    var first := Search(Some(kw1), cache, io1, apiKey1, provider1);
    var hits := SearchHits(Normalize(provider1(kw1).result.value));
    assert |kw2| == |Lower(kw2)| == |Lower(kw1)| == |kw1| > 0;
    KeyIgnoresCase(kw1, kw2);
    assert first.cache.mem == cache.mem[Key(kw1) := Cache.Entry(hits, io1.writeAt + SearchTtl)];
    assert Cache.Get(first.cache, Key(kw2), io2.readAt, io2.readFails).value == Some(hits);
  }
}
