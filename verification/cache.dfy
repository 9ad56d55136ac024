/**
 * The process-wide read-through cache of `src/utils/cache.ts`.
 *
 * A selector chooses the remote store while it is enabled; the first remote
 * error (or the client's asynchronous error event) switches it off for good,
 * after which the in-process map serves every call. Entries carry an absolute
 * expiry time and are checked lazily, only when read. The clock is the explicit
 * `now` argument, and whether a remote call fails is the explicit `fails`
 * argument of each operation.
 */
module Cache {
  import opened Wrappers

  /** A stored value and the instant (in ms) after which it is stale. */
  datatype Entry<V> = Entry(value: V, expires: int)

  /**
   * `remoteEnabled` is the `redis` selector being non-null; `remote` is what
   * the remote store holds, with its `PX` expiry; `mem` is `memoryCache`.
   */
  datatype CacheState<V> = CacheState(
    remoteEnabled: bool,
    remote: map<string, Entry<V>>,
    mem: map<string, Entry<V>>)

  /** The result of a read: the value found (if any) and the state after it. */
  datatype Read<V> = Read(value: Option<V>, state: CacheState<V>)

  /** The placeholder value the selector's configuration test compares against. */
  const PlaceholderUrl: string := "your_upstash_redis_url_here"

  /** An entry serves reads strictly before its expiry instant. */
  predicate Fresh<V>(e: Entry<V>, now: int) {
    e.expires > now
  }

  /** What a store answers for `key` at time `now`, stale entries counting as absent. */
  function Lookup<V>(store: map<string, Entry<V>>, key: string, now: int): (r: Option<V>)
    ensures r.Some? <==> key in store && Fresh(store[key], now)
    ensures r.Some? ==> r.value == store[key].value
  {
    if key in store && Fresh(store[key], now) then Some(store[key].value) else None
  }

  /**
   * The state at module load: the remote store is used only when a connection
   * string is configured, non-empty, and not the placeholder. The in-process
   * map starts empty; `remote0` is whatever the remote store already holds.
   */
  function Init<V>(url: Option<string>, remote0: map<string, Entry<V>>): (c: CacheState<V>)
    ensures c.remoteEnabled <==> url.Some? && url.value != "" && url.value != PlaceholderUrl
    ensures c.mem == map[]
  {
    CacheState(url.Some? && url.value != "" && url.value != PlaceholderUrl, remote0, map[])
  }

  /**
   * `getCache(key)` at time `now`. With the remote store enabled, a successful
   * read answers from it and a failing one answers absent and disables the
   * remote store; otherwise the in-process map answers. No read changes either
   * store's contents.
   */
  function Get<V>(c: CacheState<V>, key: string, now: int, fails: bool): (r: Read<V>)
    ensures r.state.mem == c.mem && r.state.remote == c.remote
    ensures r.state.remoteEnabled <==> c.remoteEnabled && !fails
    ensures c.remoteEnabled && fails ==> r.value == None
    ensures !c.remoteEnabled ==> r.value == Lookup(c.mem, key, now)
    ensures c.remoteEnabled && !fails ==> r.value == Lookup(c.remote, key, now)
  {
    if c.remoteEnabled then
      if fails then Read(None, c.(remoteEnabled := false))
      else Read(Lookup(c.remote, key, now), c)
    else
      Read(Lookup(c.mem, key, now), c)
  }

  /**
   * `setCache(key, value, ttl)` at time `now`. With the remote store enabled,
   * a successful write goes to it (the in-process map is untouched) and a
   * failing write is dropped and disables the remote store; otherwise the
   * in-process map gets the entry, replacing any earlier one for `key`.
   */
  function Set<V>(c: CacheState<V>, key: string, value: V, ttl: int, now: int, fails: bool): (r: CacheState<V>)
    ensures r.remoteEnabled <==> c.remoteEnabled && !fails
    ensures c.remoteEnabled ==> r.mem == c.mem
    ensures c.remoteEnabled && fails ==> r.remote == c.remote
    ensures c.remoteEnabled && !fails ==> r.remote == c.remote[key := Entry(value, now + ttl)]
    ensures !c.remoteEnabled ==> r.remote == c.remote && r.mem == c.mem[key := Entry(value, now + ttl)]
  {
    if c.remoteEnabled then
      if fails then c.(remoteEnabled := false)
      else c.(remote := c.remote[key := Entry(value, now + ttl)])
    else
      c.(mem := c.mem[key := Entry(value, now + ttl)])
  }

  /** The client's asynchronous `'error'` event: it only clears the selector. */
  function OnError<V>(c: CacheState<V>): (r: CacheState<V>)
    ensures !r.remoteEnabled
    ensures r.remote == c.remote && r.mem == c.mem
  {
    c.(remoteEnabled := false)
  }

  /** One cache operation with the remote outcome it meets. */
  datatype Op<V> =
    | GetOp(key: string, now: int, fails: bool)
    | SetOp(key: string, value: V, ttl: int, now: int, fails: bool)
    | ErrorEvent

  /** The state after one operation. */
  function Step<V>(c: CacheState<V>, op: Op<V>): (r: CacheState<V>)
    ensures r.remoteEnabled ==> c.remoteEnabled
  {
    match op
    case GetOp(k, now, f) => Get(c, k, now, f).state
    case SetOp(k, v, ttl, now, f) => Set(c, k, v, ttl, now, f)
    case ErrorEvent => OnError(c)
  }

  /** The state after a sequence of operations, applied left to right. */
  function Run<V>(c: CacheState<V>, ops: seq<Op<V>>): CacheState<V>
    decreases |ops|
  {
    if |ops| == 0 then c else Run(Step(c, ops[0]), ops[1..])
  }

  /** The values the reads among `ops` return, in order. */
  function Answers<V>(c: CacheState<V>, ops: seq<Op<V>>): seq<Option<V>>
    decreases |ops|
  {
    if |ops| == 0 then []
    else
      var rest := Answers(Step(c, ops[0]), ops[1..]);
      match ops[0]
      case GetOp(k, now, f) => [Get(c, k, now, f).value] + rest
      case _ => rest
  }

  /** `ops` with every remote call given the outcome `fails`. */
  function WithRemoteOutcome<V>(ops: seq<Op<V>>, fails: bool): (r: seq<Op<V>>)
    ensures |r| == |ops|
    decreases |ops|
  {
    if |ops| == 0 then []
    else
      var op := match ops[0]
        case GetOp(k, now, _) => GetOp(k, now, fails)
        case SetOp(k, v, ttl, now, _) => SetOp(k, v, ttl, now, fails)
        case ErrorEvent => ErrorEvent;
      [op] + WithRemoteOutcome(ops[1..], fails)
  }

  // ---------------------------------------------------------------------------
  // Laws of the in-process backend

  /** Round trip: a value written in memory mode is read back until it expires. */
  lemma MemoryRoundTrip<V>(c: CacheState<V>, k: string, v: V, ttl: int, t: int, t': int, f: bool, g: bool)
    requires !c.remoteEnabled
    requires t <= t' < t + ttl
    ensures Get(Set(c, k, v, ttl, t, f), k, t', g).value == Some(v)
  {
  }

  /** Expiry: from the instant `t + ttl` on, the entry reads as absent. */
  lemma MemoryExpiry<V>(c: CacheState<V>, k: string, v: V, ttl: int, t: int, t': int, f: bool, g: bool)
    requires !c.remoteEnabled
    requires t' >= t + ttl
    ensures Get(Set(c, k, v, ttl, t, f), k, t', g).value == None
  {
  }

  /** A key never written reads as absent at any time. */
  lemma MemoryNeverSet<V>(c: CacheState<V>, k: string, t: int, g: bool)
    requires !c.remoteEnabled
    requires k !in c.mem
    ensures Get(c, k, t, g).value == None
  {
  }

  /** Overwrite: the second write wins, with its own expiry. */
  lemma MemoryOverwrite<V>(c: CacheState<V>, k: string, v1: V, ttl1: int, t1: int,
                           v2: V, ttl2: int, t2: int, t: int, f: bool, g: bool)
    requires !c.remoteEnabled
    ensures var c2 := Set(Set(c, k, v1, ttl1, t1, f), k, v2, ttl2, t2, f);
      c2.mem[k] == Entry(v2, t2 + ttl2) &&
      Get(c2, k, t, g).value == (if t < t2 + ttl2 then Some(v2) else None)
  {
  }

  /**
   * Frame: a write to `k` changes nothing that another key reads, as long as
   * it does not itself switch the backend.
   */
  lemma SetFrame<V>(c: CacheState<V>, k: string, v: V, ttl: int, t: int, f: bool, k': string, t': int, g: bool)
    requires k' != k
    requires !c.remoteEnabled || !f
    ensures Get(Set(c, k, v, ttl, t, f), k', t', g).value == Get(c, k', t', g).value
  {
  }

  /** The same round trip holds against the remote store while it keeps working. */
  lemma RemoteRoundTrip<V>(c: CacheState<V>, k: string, v: V, ttl: int, t: int, t': int)
    requires c.remoteEnabled
    requires t <= t' < t + ttl
    ensures Get(Set(c, k, v, ttl, t, false), k, t', false).value == Some(v)
  {
  }

  /** A failing remote read answers absent and disables the remote store. */
  lemma RemoteReadFailureDowngrades<V>(c: CacheState<V>, k: string, t: int)
    requires c.remoteEnabled
    ensures var r := Get(c, k, t, true); r.value == None && !r.state.remoteEnabled && r.state.mem == c.mem
  {
  }

  /** A failing remote write is dropped: no store changes, and the remote store is disabled. */
  lemma RemoteWriteFailureDropsWrite<V>(c: CacheState<V>, k: string, v: V, ttl: int, t: int, k': string, t': int, g: bool)
    requires c.remoteEnabled
    ensures var c2 := Set(c, k, v, ttl, t, true);
      !c2.remoteEnabled && c2.mem == c.mem && c2.remote == c.remote &&
      Get(c2, k', t', g).value == Lookup(c.mem, k', t')
  {
  }

  // ---------------------------------------------------------------------------
  // Laws of the selector over whole runs

  /** Downgrade is permanent: once disabled, no run re-enables the remote store. */
  lemma {:induction false} DowngradeIsPermanent<V>(c: CacheState<V>, ops: seq<Op<V>>)
    requires !c.remoteEnabled
    ensures !Run(c, ops).remoteEnabled
    decreases |ops|
  {
    if |ops| > 0 {
      DowngradeIsPermanent(Step(c, ops[0]), ops[1..]);
    }
  }

  /**
   * After a downgrade the remote store is never consulted: a run and its reads
   * are the same whatever each remote call's outcome would be and whatever the
   * remote store holds.
   */
  lemma {:induction false} DowngradedIgnoresRemote<V>(c: CacheState<V>, ops: seq<Op<V>>, fails: bool,
                                                      remote': map<string, Entry<V>>)
    requires !c.remoteEnabled
    ensures Run(c, WithRemoteOutcome(ops, fails)) == Run(c, ops)
    ensures Answers(c, WithRemoteOutcome(ops, fails)) == Answers(c, ops)
    ensures Answers(c.(remote := remote'), ops) == Answers(c, ops)
    ensures Run(c.(remote := remote'), ops) == Run(c, ops).(remote := remote')
    decreases |ops|
  {
    if |ops| > 0 {
      var ops' := WithRemoteOutcome(ops, fails);
      assert ops'[1..] == WithRemoteOutcome(ops[1..], fails);
      assert Step(c, ops'[0]) == Step(c, ops[0]);
      assert Step(c.(remote := remote'), ops[0]) == Step(c, ops[0]).(remote := remote');
      DowngradedIgnoresRemote(Step(c, ops[0]), ops[1..], fails, remote');
    }
  }

  /** While the remote store stays enabled the in-process map is never written. */
  lemma {:induction false} MemoryUntouchedWhileRemote<V>(c: CacheState<V>, ops: seq<Op<V>>)
    requires Run(c, ops).remoteEnabled
    ensures Run(c, ops).mem == c.mem
    decreases |ops|
  {
    if |ops| > 0 {
      var c1 := Step(c, ops[0]);
      if !c1.remoteEnabled {
        DowngradeIsPermanent(c1, ops[1..]);
      } else {
        MemoryUntouchedWhileRemote(c1, ops[1..]);
      }
    }
  }

  /** Reads never change the in-process map: a run of reads leaves it as it was. */
  lemma {:induction false} ReadsAreLazy<V>(c: CacheState<V>, ops: seq<Op<V>>)
    requires forall i :: 0 <= i < |ops| ==> !ops[i].SetOp?
    ensures Run(c, ops).mem == c.mem && Run(c, ops).remote == c.remote
    decreases |ops|
  {
    if |ops| > 0 {
      ReadsAreLazy(Step(c, ops[0]), ops[1..]);
    }
  }

  /**
   * The degradation scenario: after one remote failure, a write followed by a
   * read round-trips through the in-process map even if every later remote
   * call would fail.
   */
  lemma FailureThenRoundTrip<V>(c: CacheState<V>, k0: string, t0: int, k: string, v: V, ttl: int, t: int)
    requires c.remoteEnabled
    requires t < t + ttl
    ensures var c1 := Get(c, k0, t0, true).state;
      Answers(c1, [SetOp(k, v, ttl, t, true), GetOp(k, t, true)]) == [Some(v)]
  {
    var c1 := Get(c, k0, t0, true).state;
    var c2 := Set(c1, k, v, ttl, t, true);
    assert Answers(c2, [GetOp(k, t, true)]) == [Some(v)] + Answers(c2, []);
    assert [SetOp(k, v, ttl, t, true), GetOp(k, t, true)][1..] == [GetOp(k, t, true)];
  }

  /**
   * The quote route's entry: cached under `stock_quote_<SYMBOL>` for five
   * minutes, it is served at once and absent 300001 ms later.
   */
  lemma QuoteExample(c: CacheState<real>, t: nat)
    requires !c.remoteEnabled
    ensures var c1 := Set(c, "stock_quote_AAPL", 150.25, 5 * 60 * 1000, t, false);
      Get(c1, "stock_quote_AAPL", t, false).value == Some(150.25) &&
      Get(c1, "stock_quote_AAPL", t + 300001, false).value == None
  {
  }
}
