/** `api.py`: the cached price lookup and the per-chain whale-transaction lookup.
    The exchange's ticker and each block explorer's reply are oracle inputs; the
    explorer API keys are the environment as read once at import time. Failures
    are logged through the database's `log_error`. */
module Api {
  import opened Wrappers
  import opened Json
  import opened Utils
  import opened Database

  const PriceTtl := 60.0
  const ChainTtl := 3600.0

  /** The ticker fields the price lookup reads; ccxt may leave any of them None. */
  datatype Ticker = Ticker(last: Option<real>, high: Option<real>, low: Option<real>,
                           percentage: Option<real>, quoteVolume: Option<real>)

  /** What `exchange.fetch_ticker(symbol)` does: answer, or raise with a message. */
  datatype ExchangeReply = TickerOk(ticker: Ticker) | ExchangeFailed(reason: string)

  /** The dict `get_crypto_price` builds and caches. */
  datatype PriceData = PriceData(price: Option<real>, high: Option<real>, low: Option<real>,
                                 change: Option<real>, volume: Option<real>, symbol: string)

  function FromTicker(symbol: string, t: Ticker): (p: PriceData)
    ensures p.symbol == symbol && p.price == t.last && p.change == t.percentage && p.volume == t.quoteVolume
    ensures p.high == t.high && p.low == t.low
  {
    PriceData(t.last, t.high, t.low, t.percentage, t.quoteVolume, symbol)
  }

  /** Outcome of one price lookup: the answer, the price cache after it, and the
      error rows it logs. */
  datatype Priced = Priced(result: Option<PriceData>, cache: map<string, Entry<PriceData>>, logs: seq<ErrorRow>)

  /** `get_crypto_price(symbol)`: a fresh cached dict (always truthy) is returned
      as is; otherwise the exchange is asked, and its answer is cached under the
      symbol; a failure is logged under "PRICE" and yields None. */
  function PriceLookup(symbol: string, reply: ExchangeReply, cache: map<string, Entry<PriceData>>, now: real): (p: Priced)
    ensures Fresh(cache, PriceTtl, symbol, now).Some? ==>
      p == Priced(Fresh(cache, PriceTtl, symbol, now), cache, [])
    ensures Fresh(cache, PriceTtl, symbol, now).None? && reply.TickerOk? ==>
      && p.result == Some(FromTicker(symbol, reply.ticker))
      && p.cache == cache[symbol := Entry(p.result.value, now)]
      && p.logs == []
    ensures Fresh(cache, PriceTtl, symbol, now).None? && reply.ExchangeFailed? ==>
      p == Priced(None, cache, [LogRow("PRICE", "Error: " + reply.reason, now)])
  {
    var cached := Fresh(cache, PriceTtl, symbol, now);
    if cached.Some? then Priced(cached, cache, [])
    else match reply
      case TickerOk(t) =>
        var data := FromTicker(symbol, t);
        Priced(Some(data), cache[symbol := Entry(data, now)], [])
      case ExchangeFailed(reason) => Priced(None, cache, [LogRow("PRICE", "Error: " + reason, now)])
  }

  /** Once fetched, a price is served from the cache for the next 60 seconds,
      whatever the exchange would answer, and nothing is logged. */
  lemma PriceServedFromCache(symbol: string, reply: ExchangeReply, again: ExchangeReply,
                             cache: map<string, Entry<PriceData>>, now: real, later: real)
    requires Fresh(cache, PriceTtl, symbol, now).None? && reply.TickerOk?
    requires now <= later < now + PriceTtl
    ensures var first := PriceLookup(symbol, reply, cache, now);
      PriceLookup(symbol, again, first.cache, later) == Priced(first.result, first.cache, [])
  {
  }

  // ---------------------------------------------------------------------------
  // Whale transactions

  /** An entry of `BLOCKCHAIN_APIS`; `keyVar` names the environment variable
      holding its API key. */
  datatype Chain = Chain(code: string, name: string, apiUrl: string, keyVar: string)

  /** `BLOCKCHAIN_APIS`, in its iteration order. */
  const BlockchainApis: seq<Chain> := [
    Chain("ETH", "Ethereum", "https://api.etherscan.io/api", "ETHERSCAN_API_KEY"),
    Chain("BSC", "Binance Smart Chain", "https://api.bscscan.com/api", "BSCSCAN_API_KEY"),
    Chain("MATIC", "Polygon", "https://api.polygonscan.com/api", "POLYGONSCAN_API_KEY"),
    Chain("ARB", "Arbitrum", "https://api.arbiscan.io/api", "ARBISCAN_API_KEY"),
    Chain("OP", "Optimism", "https://api-optimistic.etherscan.io/api", "OPTIMISMSCAN_API_KEY"),
    Chain("AVAX", "Avalanche", "https://api.snowtrace.io/api", "SNOWSCAN_API_KEY")
  ]

  /** `config['api_key']` is truthy: the variable is set and not empty. */
  predicate HasApiKey(keys: map<string, string>, c: Chain) {
    c.keyVar in keys && keys[c.keyVar] != ""
  }

  function CacheKey(currency: string, c: Chain): string {
    currency + "_" + c.code
  }

  /** For one currency, different chains never share a cache slot. */
  lemma CacheKeysDistinct(currency: string, a: Chain, b: Chain)
    requires a.code != b.code
    ensures CacheKey(currency, a) != CacheKey(currency, b)
  {
    assert CacheKey(currency, a)[|currency| + 1..] == a.code;
    assert CacheKey(currency, b)[|currency| + 1..] == b.code;
  }

  /** What `safe_api_request` yields for one chain: the decoded JSON body, or a
      failure (network, HTTP status, undecodable body) with its message. */
  datatype ExplorerReply = RequestFailed(reason: string) | Response(body: Json)

  /** A chain-cache value as `get_whale_transactions` stores it: `result[:5]` of
      a list or a string. */
  predicate Sliced(j: Json) {
    (j.JArr? && |j.items| <= 5) || (j.JStr? && |j.s| <= 5)
  }

  predicate ChainCacheSliced(cache: map<string, Entry<Json>>) {
    forall k :: k in cache ==> Sliced(cache[k].data)
  }

  /** `result[:5]`; None stands for the TypeError of slicing anything but a list or string. */
  function FirstFive(result: Json): (r: Option<Json>)
    ensures r.Some? <==> result.JArr? || result.JStr?
    ensures r.Some? ==> Sliced(r.value)
    ensures result.JArr? ==> r == Some(JArr(result.items[..if |result.items| < 5 then |result.items| else 5]))
  {
    match result
    case JArr(items) => Some(JArr(items[..if |items| < 5 then |items| else 5]))
    case JStr(s) => Some(JStr(s[..if |s| < 5 then |s| else 5]))
    case _ => None
  }

  /** `transactions.extend(value)` for a sliced value: its items, or its characters. */
  function Items(j: Json): (r: seq<Json>)
    requires Sliced(j)
    ensures |r| <= 5
    ensures j.JArr? ==> r == j.items
  {
    match Iterate(j)
    case Ok(items) => items
    case Raised(_) => []
  }

  /** Outcome of looking chains up: the transactions gathered, the chain cache
      after it, and the error rows logged. */
  datatype Fetch = Fetch(txs: seq<Json>, cache: map<string, Entry<Json>>, logs: seq<ErrorRow>)

  /** `data and data.get('status') == '1'` for the decoded reply: a request that
      did not fail, returning a dict whose "status" is the string '1' (such a dict
      is non-empty, hence truthy). */
  predicate StatusOk(reply: ExplorerReply) {
    reply.Response? && reply.body.JObj? && ObjGet(reply.body.fields, "status") == Some(JStr("1"))
  }

  /** `data.get('result', [])`. */
  function ResultOf(fields: seq<(string, Json)>): Json {
    if ObjGet(fields, "result").Some? then ObjGet(fields, "result").value else JArr([])
  }

  /** The explorer request for a chain whose cache slot `key` missed. */
  function Query(c: Chain, key: string, reply: ExplorerReply, cache: map<string, Entry<Json>>, now: real): (f: Fetch)
    requires ChainCacheSliced(cache)
    ensures ChainCacheSliced(f.cache) && |f.txs| <= 5
    ensures f.cache == cache || (key in f.cache && f.cache == cache[key := Entry(f.cache[key].data, now)])
    ensures f.cache != cache ==> StatusOk(reply) && key in f.cache && Items(f.cache[key].data) == f.txs
    // any other reply contributes nothing and caches nothing
    ensures !StatusOk(reply) ==> f.txs == [] && f.cache == cache
    // `safe_api_request` logs its own failure and returns None
    ensures reply.RequestFailed? ==> f.logs == [LogRow("API", "Request error: " + reply.reason, now)]
    // a falsy body, or a dict with another status, is passed over silently
    ensures reply.Response? && (!Truthy(reply.body) || (reply.body.JObj? && !StatusOk(reply))) ==> f.logs == []
    // a truthy body that is not a dict has no `.get`
    ensures reply.Response? && Truthy(reply.body) && !reply.body.JObj? ==>
      f.logs == [LogRow("WHALE_TX", "Chain " + c.code + " error: AttributeError", now)]
    // with status '1', a result that cannot be sliced raises; one that can is contributed and cached
    ensures StatusOk(reply) && FirstFive(ResultOf(reply.body.fields)).None? ==>
      f == Fetch([], cache, [LogRow("WHALE_TX", "Chain " + c.code + " error: TypeError", now)])
    ensures StatusOk(reply) && FirstFive(ResultOf(reply.body.fields)).Some? ==>
      var first := FirstFive(ResultOf(reply.body.fields)).value;
      f == Fetch(Items(first), cache[key := Entry(first, now)], [])
  {
    match reply
    case RequestFailed(reason) => Fetch([], cache, [LogRow("API", "Request error: " + reason, now)])
    case Response(body) =>
      if !Truthy(body) then Fetch([], cache, [])
      else if !body.JObj? then Fetch([], cache, [LogRow("WHALE_TX", "Chain " + c.code + " error: AttributeError", now)])
      else if ObjGet(body.fields, "status") != Some(JStr("1")) then Fetch([], cache, [])
      else
        var first := FirstFive(ResultOf(body.fields));
        if first.None? then Fetch([], cache, [LogRow("WHALE_TX", "Chain " + c.code + " error: TypeError", now)])
        else
          var f := Fetch(Items(first.value), cache[key := Entry(first.value, now)], []);
          assert f.cache != cache ==> f.cache[key] == Entry(first.value, now);
          f
  }

  /** The chain's slot misses: nothing fresh and truthy is cached under `key`. */
  predicate Missed(cache: map<string, Entry<Json>>, key: string, now: real) {
    !(Fresh(cache, ChainTtl, key, now).Some? && Truthy(Fresh(cache, ChainTtl, key, now).value))
  }

  /** One iteration of the chain loop of `get_whale_transactions(currency)`. */
  function FetchChain(c: Chain, keys: map<string, string>, currency: string, reply: ExplorerReply,
                      cache: map<string, Entry<Json>>, now: real): (f: Fetch)
    requires ChainCacheSliced(cache)
    ensures ChainCacheSliced(f.cache)
    ensures |f.txs| <= 5
    // a chain without an API key is skipped outright
    ensures !HasApiKey(keys, c) ==> f == Fetch([], cache, [])
    // only the chain's own slot `currency_chain` is ever written, and it is restarted at `now`
    ensures forall k :: k != CacheKey(currency, c) ==> (k in f.cache <==> k in cache)
    ensures forall k :: k != CacheKey(currency, c) && k in cache ==> f.cache[k] == cache[k]
    ensures f.cache != cache ==> CacheKey(currency, c) in f.cache && f.cache[CacheKey(currency, c)].timestamp == now
    // a fresh, non-empty cached value is used verbatim and the explorer is not consulted
    ensures HasApiKey(keys, c) && !Missed(cache, CacheKey(currency, c), now) ==>
      f == Fetch(Items(Fresh(cache, ChainTtl, CacheKey(currency, c), now).value), cache, [])
    // caching happens only on a `status == '1'` reply, and what is cached is what is contributed
    ensures f.cache != cache ==> StatusOk(reply) && Items(f.cache[CacheKey(currency, c)].data) == f.txs
    // on a miss, a failing request or a reply without status '1' contributes nothing
    ensures HasApiKey(keys, c) && Missed(cache, CacheKey(currency, c), now) && !StatusOk(reply) ==>
      f.txs == [] && f.cache == cache
    ensures HasApiKey(keys, c) && Missed(cache, CacheKey(currency, c), now) && reply.RequestFailed? ==>
      f.logs == [LogRow("API", "Request error: " + reply.reason, now)]
    ensures HasApiKey(keys, c) && Missed(cache, CacheKey(currency, c), now)
            && reply.Response? && Truthy(reply.body) && !reply.body.JObj? ==>
      f.logs == [LogRow("WHALE_TX", "Chain " + c.code + " error: AttributeError", now)]
    ensures HasApiKey(keys, c) && Missed(cache, CacheKey(currency, c), now)
            && StatusOk(reply) && FirstFive(ResultOf(reply.body.fields)).None? ==>
      f == Fetch([], cache, [LogRow("WHALE_TX", "Chain " + c.code + " error: TypeError", now)])
  {
    if !HasApiKey(keys, c) then Fetch([], cache, [])
    else
      var key := CacheKey(currency, c);
      var cached := Fresh(cache, ChainTtl, key, now);
      if cached.Some? && Truthy(cached.value) then
        assert Sliced(cached.value);
        Fetch(Items(cached.value), cache, [])
      else Query(c, key, reply, cache, now)
  }

  /** A fresh reply with `status == '1'` and a result list contributes, and caches,
      exactly the first five results. */
  lemma FetchChainKeepsFirstFive(c: Chain, keys: map<string, string>, currency: string, body: seq<(string, Json)>,
                                 items: seq<Json>, cache: map<string, Entry<Json>>, now: real)
    requires ChainCacheSliced(cache) && HasApiKey(keys, c)
    requires Fresh(cache, ChainTtl, CacheKey(currency, c), now).None?
    requires body != [] && ObjGet(body, "status") == Some(JStr("1")) && ObjGet(body, "result") == Some(JArr(items))
    ensures var first := items[..if |items| < 5 then |items| else 5];
      FetchChain(c, keys, currency, Response(JObj(body)), cache, now)
        == Fetch(first, cache[CacheKey(currency, c) := Entry(JArr(first), now)], [])
  {
    var key := CacheKey(currency, c);
    var first := items[..if |items| < 5 then |items| else 5];
    assert Truthy(JObj(body));
    assert FirstFive(JArr(items)) == Some(JArr(first));
    assert Items(JArr(first)) == first;
    assert Query(c, key, Response(JObj(body)), cache, now) == Fetch(first, cache[key := Entry(JArr(first), now)], []);
  }

  /** A cached empty list is falsy: the chain is looked up as if nothing were cached. */
  lemma EmptyCachedListIsMiss(c: Chain, keys: map<string, string>, currency: string, reply: ExplorerReply,
                              cache: map<string, Entry<Json>>, now: real)
    requires ChainCacheSliced(cache)
    requires Fresh(cache, ChainTtl, CacheKey(currency, c), now) == Some(JArr([]))
    ensures var hit := FetchChain(c, keys, currency, reply, cache, now);
      var miss := FetchChain(c, keys, currency, reply, cache - {CacheKey(currency, c)}, now);
      hit.txs == miss.txs && hit.logs == miss.logs
  {
  }

  /** `get_whale_transactions(currency)` over a prefix of `BLOCKCHAIN_APIS`: each
      chain's contribution in table order; a failing chain contributes nothing and
      the chains after it still run. */
  function FetchChains(chains: seq<Chain>, keys: map<string, string>, currency: string,
                       explorer: (string, string) -> ExplorerReply,
                       cache: map<string, Entry<Json>>, now: real): (f: Fetch)
    requires ChainCacheSliced(cache)
    ensures ChainCacheSliced(f.cache)
    ensures |f.txs| <= 5 * |chains|
  {
    if chains == [] then Fetch([], cache, [])
    else
      var prev := FetchChains(chains[..|chains| - 1], keys, currency, explorer, cache, now);
      var c := chains[|chains| - 1];
      var step := FetchChain(c, keys, currency, explorer(c.code, currency), prev.cache, now);
      Fetch(prev.txs + step.txs, step.cache, prev.logs + step.logs)
  }

  /** The lookup over one more chain continues from where the shorter one left off. */
  lemma FetchChainsStep(chains: seq<Chain>, i: nat, keys: map<string, string>, currency: string,
                        explorer: (string, string) -> ExplorerReply,
                        cache: map<string, Entry<Json>>, now: real)
    requires i < |chains| && ChainCacheSliced(cache)
    ensures var prev := FetchChains(chains[..i], keys, currency, explorer, cache, now);
      var step := FetchChain(chains[i], keys, currency, explorer(chains[i].code, currency), prev.cache, now);
      FetchChains(chains[..i + 1], keys, currency, explorer, cache, now)
        == Fetch(prev.txs + step.txs, step.cache, prev.logs + step.logs)
  {
    assert chains[..i + 1][..i] == chains[..i];
  }

  /** With no API key configured, the lookup yields nothing and touches nothing. */
  lemma {:induction false} FetchChainsWithoutKeys(chains: seq<Chain>, keys: map<string, string>, currency: string,
                                                  explorer: (string, string) -> ExplorerReply,
                                                  cache: map<string, Entry<Json>>, now: real)
    requires ChainCacheSliced(cache)
    requires forall i :: 0 <= i < |chains| ==> !HasApiKey(keys, chains[i])
    ensures FetchChains(chains, keys, currency, explorer, cache, now) == Fetch([], cache, [])
  {
    if chains != [] {
      FetchChainsWithoutKeys(chains[..|chains| - 1], keys, currency, explorer, cache, now);
    }
  }

  /** Chain `i` contributes nothing: it adds no transactions and leaves the cache
      as the earlier chains left it (it may still log). */
  predicate Silent(chains: seq<Chain>, i: nat, keys: map<string, string>, currency: string,
                   explorer: (string, string) -> ExplorerReply, cache: map<string, Entry<Json>>, now: real)
    requires i < |chains| && ChainCacheSliced(cache)
  {
    var prev := FetchChains(chains[..i], keys, currency, explorer, cache, now);
    var step := FetchChain(chains[i], keys, currency, explorer(chains[i].code, currency), prev.cache, now);
    step.txs == [] && step.cache == prev.cache
  }

  /** `f` is `g` with the rows `step` spliced into its log right after `prev`,
      its transactions and cache being the same. */
  predicate SplicedIn(f: Fetch, g: Fetch, prev: seq<ErrorRow>, step: seq<ErrorRow>) {
    && f.txs == g.txs && f.cache == g.cache
    && |prev| <= |g.logs| && g.logs[..|prev|] == prev
    && f.logs == prev + step + g.logs[|prev|..]
  }

  /** Running one more chain on the same cache keeps the splice. */
  lemma ExtendKeepsSplice(f: Fetch, g: Fetch, prev: seq<ErrorRow>, step: seq<ErrorRow>,
                          c: Chain, keys: map<string, string>, currency: string, reply: ExplorerReply, now: real)
    requires ChainCacheSliced(f.cache) && SplicedIn(f, g, prev, step)
    ensures var s := FetchChain(c, keys, currency, reply, f.cache, now);
      SplicedIn(Fetch(f.txs + s.txs, s.cache, f.logs + s.logs), Fetch(g.txs + s.txs, s.cache, g.logs + s.logs), prev, step)
  {
    var s := FetchChain(c, keys, currency, reply, f.cache, now);
    LogsSpliced(prev, step, g.logs, s.logs);
  }

  /** The lookup over a table with one more chain continues from the shorter one. */
  lemma FetchChainsSnoc(t: seq<Chain>, c: Chain, keys: map<string, string>, currency: string,
                        explorer: (string, string) -> ExplorerReply,
                        cache: map<string, Entry<Json>>, now: real)
    requires ChainCacheSliced(cache)
    ensures var prev := FetchChains(t, keys, currency, explorer, cache, now);
      var step := FetchChain(c, keys, currency, explorer(c.code, currency), prev.cache, now);
      FetchChains(t + [c], keys, currency, explorer, cache, now) == Fetch(prev.txs + step.txs, step.cache, prev.logs + step.logs)
  {
    assert (t + [c])[..|t|] == t;
  }

  /** Two tables related by a splice stay related when both gain the same chain. */
  lemma SpliceSnoc(t1: seq<Chain>, t2: seq<Chain>, c: Chain, prev: seq<ErrorRow>, step: seq<ErrorRow>,
                   keys: map<string, string>, currency: string, explorer: (string, string) -> ExplorerReply,
                   cache: map<string, Entry<Json>>, now: real)
    requires ChainCacheSliced(cache)
    requires SplicedIn(FetchChains(t1, keys, currency, explorer, cache, now), FetchChains(t2, keys, currency, explorer, cache, now), prev, step)
    ensures SplicedIn(FetchChains(t1 + [c], keys, currency, explorer, cache, now), FetchChains(t2 + [c], keys, currency, explorer, cache, now), prev, step)
  {
    var f := FetchChains(t1, keys, currency, explorer, cache, now);
    var g := FetchChains(t2, keys, currency, explorer, cache, now);
    FetchChainsSnoc(t1, c, keys, currency, explorer, cache, now);
    FetchChainsSnoc(t2, c, keys, currency, explorer, cache, now);
    ExtendKeepsSplice(f, g, prev, step, c, keys, currency, explorer(c.code, currency), now);
  }

  /** A chain that contributes nothing does not disturb the others: over the first
      `j` chains the transactions and the cache are those of the table without
      chain `i`, and the log is that table's log with chain `i`'s rows in its place. */
  lemma {:induction false} SilentChainUpTo(chains: seq<Chain>, i: nat, j: nat, keys: map<string, string>, currency: string,
                                           explorer: (string, string) -> ExplorerReply,
                                           cache: map<string, Entry<Json>>, now: real)
    requires i < j <= |chains| && ChainCacheSliced(cache)
    requires Silent(chains, i, keys, currency, explorer, cache, now)
    ensures var prev := FetchChains(chains[..i], keys, currency, explorer, cache, now);
      var step := FetchChain(chains[i], keys, currency, explorer(chains[i].code, currency), prev.cache, now);
      SplicedIn(FetchChains(chains[..j], keys, currency, explorer, cache, now),
                FetchChains(chains[..i] + chains[i + 1..j], keys, currency, explorer, cache, now), prev.logs, step.logs)
    decreases j
  {
    var prev := FetchChains(chains[..i], keys, currency, explorer, cache, now);
    var step := FetchChain(chains[i], keys, currency, explorer(chains[i].code, currency), prev.cache, now);
    if j == i + 1 {
      SilentChainAlone(chains, i, keys, currency, explorer, cache, now);
    } else {
      SilentChainUpTo(chains, i, j - 1, keys, currency, explorer, cache, now);
      WithoutGrows(chains, i, j);
      SpliceSnoc(chains[..j - 1], chains[..i] + chains[i + 1..j - 1], chains[j - 1], prev.logs, step.logs,
                 keys, currency, explorer, cache, now);
    }
  }

  /** Right after chain `i`, the log is the earlier chains' log plus chain `i`'s rows. */
  lemma SilentChainAlone(chains: seq<Chain>, i: nat, keys: map<string, string>, currency: string,
                         explorer: (string, string) -> ExplorerReply,
                         cache: map<string, Entry<Json>>, now: real)
    requires i < |chains| && ChainCacheSliced(cache)
    requires Silent(chains, i, keys, currency, explorer, cache, now)
    ensures var prev := FetchChains(chains[..i], keys, currency, explorer, cache, now);
      var step := FetchChain(chains[i], keys, currency, explorer(chains[i].code, currency), prev.cache, now);
      SplicedIn(FetchChains(chains[..i + 1], keys, currency, explorer, cache, now),
                FetchChains(chains[..i] + chains[i + 1..i + 1], keys, currency, explorer, cache, now), prev.logs, step.logs)
  {
    FetchChainsStep(chains, i, keys, currency, explorer, cache, now);
    assert chains[..i] + chains[i + 1..i + 1] == chains[..i];
  }

  /** Cutting one chain later adds that chain, with or without chain `i`. */
  lemma WithoutGrows(chains: seq<Chain>, i: nat, j: nat)
    requires i + 1 < j <= |chains|
    ensures chains[..j] == chains[..j - 1] + [chains[j - 1]]
    ensures chains[..i] + chains[i + 1..j] == chains[..i] + chains[i + 1..j - 1] + [chains[j - 1]]
  {
  }

  /** Appending rows keeps them spliced after chain `i`'s rows. */
  lemma LogsSpliced(prev: seq<ErrorRow>, step: seq<ErrorRow>, g: seq<ErrorRow>, s: seq<ErrorRow>)
    requires |prev| <= |g| && g[..|prev|] == prev
    ensures |prev| <= |g + s| && (g + s)[..|prev|] == prev
    ensures prev + step + g[|prev|..] + s == prev + step + (g + s)[|prev|..]
  {
    AppendAssoc(prev + step, g[|prev|..], s);
    assert (g + s)[|prev|..] == g[|prev|..] + s;
  }

  /** `get_whale_transactions`: a chain whose request fails, or whose reply has no
      status '1', contributes nothing; the chains after it still run, and the
      transactions and cache are those of the table without it. */
  lemma SilentChainSkipped(chains: seq<Chain>, i: nat, keys: map<string, string>, currency: string,
                           explorer: (string, string) -> ExplorerReply,
                           cache: map<string, Entry<Json>>, now: real)
    requires i < |chains| && ChainCacheSliced(cache)
    requires Silent(chains, i, keys, currency, explorer, cache, now)
    ensures var f := FetchChains(chains, keys, currency, explorer, cache, now);
      var g := FetchChains(chains[..i] + chains[i + 1..], keys, currency, explorer, cache, now);
      f.txs == g.txs && f.cache == g.cache
  {
    SilentChainUpTo(chains, i, |chains|, keys, currency, explorer, cache, now);
    assert chains[..|chains|] == chains;
  }

  /** On a miss, a reply without status '1' makes its chain silent. */
  lemma FailedReplyIsSilent(chains: seq<Chain>, i: nat, keys: map<string, string>, currency: string,
                            explorer: (string, string) -> ExplorerReply,
                            cache: map<string, Entry<Json>>, now: real)
    requires i < |chains| && ChainCacheSliced(cache)
    requires !StatusOk(explorer(chains[i].code, currency))
    requires Missed(FetchChains(chains[..i], keys, currency, explorer, cache, now).cache, CacheKey(currency, chains[i]), now)
    ensures Silent(chains, i, keys, currency, explorer, cache, now)
  {
  }

  class Api {
    const keys: map<string, string>
    const priceCache: DataCache<PriceData>
    const chainCache: DataCache<Json>

    ghost predicate Valid()
      reads chainCache
    {
      priceCache.ttl == PriceTtl && chainCache.ttl == ChainTtl && ChainCacheSliced(chainCache.cache)
    }

    /** Module import: `price_cache`, `chain_cache` and the API keys read from the environment. */
    constructor (keys: map<string, string>)
      ensures Valid() && this.keys == keys
      ensures fresh(priceCache) && fresh(chainCache)
      ensures priceCache.cache == map[] && chainCache.cache == map[]
    {
      this.keys := keys;
      priceCache := new DataCache(PriceTtl);
      chainCache := new DataCache(ChainTtl);
    }

    /** `get_crypto_price(symbol)`. */
    method GetCryptoPrice(symbol: string, exchange: ExchangeReply, db: Database, now: real) returns (r: Option<PriceData>)
      requires Valid()
      modifies priceCache`cache, db`errors
      ensures Valid()
      ensures var p := PriceLookup(symbol, exchange, old(priceCache.cache), now);
        r == p.result && priceCache.cache == p.cache && db.errors == old(db.errors) + p.logs
    {
      r := priceCache.Get(symbol, now);
      if r.Some? {
        return;
      }
      match exchange
      case TickerOk(t) =>
        var data := FromTicker(symbol, t);
        priceCache.Set(symbol, data, now);
        r := Some(data);
      case ExchangeFailed(reason) =>
        db.LogError("PRICE", "Error: " + reason, now);
    }

    /** One chain of `get_whale_transactions`. */
    method FetchFromChain(c: Chain, currency: string, reply: ExplorerReply, db: Database, now: real)
      returns (txs: seq<Json>)
      requires Valid()
      modifies chainCache`cache, db`errors
      ensures Valid()
      ensures var f := FetchChain(c, keys, currency, reply, old(chainCache.cache), now);
        txs == f.txs && chainCache.cache == f.cache && db.errors == old(db.errors) + f.logs
    {
      if !HasApiKey(keys, c) {
        return [];
      }
      var key := CacheKey(currency, c);
      var cached := chainCache.Get(key, now);
      if cached.Some? && Truthy(cached.value) {
        return Items(cached.value);
      }
      txs := [];
      match reply
      case RequestFailed(reason) =>
        db.LogError("API", "Request error: " + reason, now);
      case Response(body) =>
        if !Truthy(body) {
        } else if !body.JObj? {
          db.LogError("WHALE_TX", "Chain " + c.code + " error: AttributeError", now);
        } else if ObjGet(body.fields, "status") == Some(JStr("1")) {
          var result := ObjGet(body.fields, "result");
          var first := FirstFive(if result.Some? then result.value else JArr([]));
          if first.None? {
            db.LogError("WHALE_TX", "Chain " + c.code + " error: TypeError", now);
          } else {
            chainCache.Set(key, first.value, now);
            txs := Items(first.value);
          }
        }
    }

    /** `get_whale_transactions(currency)`; `explorer(chain, currency)` is what the
        chain's explorer would answer. */
    method GetWhaleTransactions(currency: string, explorer: (string, string) -> ExplorerReply, db: Database, now: real)
      returns (txs: seq<Json>)
      requires Valid()
      modifies chainCache`cache, db`errors
      ensures Valid()
      ensures var f := FetchChains(BlockchainApis, keys, currency, explorer, old(chainCache.cache), now);
        txs == f.txs && chainCache.cache == f.cache && db.errors == old(db.errors) + f.logs
    {
      txs := FetchFromChains(BlockchainApis, currency, explorer, db, now);
    }

    /** The loop of `get_whale_transactions` over a table of chains, in table order. */
    method FetchFromChains(chains: seq<Chain>, currency: string, explorer: (string, string) -> ExplorerReply,
                           db: Database, now: real)
      returns (txs: seq<Json>)
      requires Valid()
      modifies chainCache`cache, db`errors
      ensures Valid()
      ensures var f := FetchChains(chains, keys, currency, explorer, old(chainCache.cache), now);
        txs == f.txs && chainCache.cache == f.cache && db.errors == old(db.errors) + f.logs
    {
      txs := [];
      var i := 0;
      while i < |chains|
        invariant 0 <= i <= |chains|
        invariant Valid()
        invariant var f := FetchChains(chains[..i], keys, currency, explorer, old(chainCache.cache), now);
          txs == f.txs && chainCache.cache == f.cache && db.errors == old(db.errors) + f.logs
      {
        var more := FetchNext(chains, i, currency, explorer, db, now, old(chainCache.cache), old(db.errors));
        txs := txs + more;
        i := i + 1;
      }
      assert chains[..i] == chains;
    }

    /** One turn of that loop: the chain at `i`, from the state the earlier chains left. */
    method FetchNext(chains: seq<Chain>, i: nat, currency: string, explorer: (string, string) -> ExplorerReply,
                     db: Database, now: real, ghost cache0: map<string, Entry<Json>>, ghost errors0: seq<ErrorRow>)
      returns (more: seq<Json>)
      requires i < |chains| && Valid() && ChainCacheSliced(cache0)
      requires var prev := FetchChains(chains[..i], keys, currency, explorer, cache0, now);
        chainCache.cache == prev.cache && db.errors == errors0 + prev.logs
      modifies chainCache`cache, db`errors
      ensures Valid()
      ensures var prev := FetchChains(chains[..i], keys, currency, explorer, cache0, now);
        var f := FetchChains(chains[..i + 1], keys, currency, explorer, cache0, now);
        f.txs == prev.txs + more && chainCache.cache == f.cache && db.errors == errors0 + f.logs
    {
      FetchChainsStep(chains, i, keys, currency, explorer, cache0, now);
      ghost var prev := FetchChains(chains[..i], keys, currency, explorer, cache0, now);
      var c := chains[i];
      more := FetchFromChain(c, currency, explorer(c.code, currency), db, now);
      AppendAssoc(errors0, prev.logs, FetchChain(c, keys, currency, explorer(c.code, currency), prev.cache, now).logs);
    }
  }
}
