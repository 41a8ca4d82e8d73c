/** The multi-source price fetcher: per-symbol quotes from several sources,
    a five-minute per-symbol cache, and a consensus price per symbol that
    discards quotes straying too far from the mean. The HTTP fetchers are a
    parameter from (source, symbol) to the price, or `None` where the source
    swallowed an error or had no price; the clock is the parameter `now`.
    Being a function, the parameter answers a repeated request the same way.
    That shows only for a symbol listed twice whose first round found
    nothing: the source asks again and may now get an answer, where the
    second round here finds nothing again. A first round that found quotes
    makes the second occurrence a cache hit in both. */
module PriceFetcher {
  import opened Common

  /** The default `max_deviation` of `verify_prices`. */
  const DefaultMaxDeviation: real := 0.05

  /** The sources, in the order the fetcher's source table lists them. */
  const Sources: seq<string> := ["coingecko", "coinbase"]

  /** The prices of a per-source dictionary, in insertion order. */
  function Values(d: Dict<real>): (vs: seq<real>)
    ensures |vs| == |d| && forall i :: 0 <= i < |d| ==> vs[i] == d[i].1
  {
    seq(|d|, i requires 0 <= i < |d| => d[i].1)
  }

  /** The quotes within `maxDeviation` of `avg`, relatively, in order. */
  function WithinDeviation(values: seq<real>, avg: real, maxDeviation: real): (valid: seq<real>)
    requires avg != 0.0
    ensures |valid| <= |values|
    ensures forall p :: p in valid ==> p in values && Abs(p - avg) / avg <= maxDeviation
    ensures forall p :: p in values && Abs(p - avg) / avg <= maxDeviation ==> p in valid
  {
    if values == [] then []
    else
      var last := values[|values| - 1];
      var front := values[..|values| - 1];
      assert values == front + [last];
      WithinDeviation(front, avg, maxDeviation) +
        (if Abs(last - avg) / avg <= maxDeviation then [last] else [])
  }

  /** The filter keeps every in-band quote as often as it was quoted, and no
      other quote, so the mean taken over what it keeps weighs repeated
      quotes as the source's list does. */
  lemma {:induction false} WithinDeviationCounts(values: seq<real>, avg: real, maxDeviation: real, p: real)
    requires avg != 0.0
    ensures multiset(WithinDeviation(values, avg, maxDeviation))[p] ==
              if Abs(p - avg) / avg <= maxDeviation then multiset(values)[p] else 0
  {
    if values != [] {
      var last := values[|values| - 1];
      var front := values[..|values| - 1];
      var rest := WithinDeviation(front, avg, maxDeviation);
      var tail := if Abs(last - avg) / avg <= maxDeviation then [last] else [];
      assert values == front + [last];
      assert WithinDeviation(values, avg, maxDeviation) == rest + tail;
      assert multiset(values)[p] == multiset(front)[p] + multiset([last])[p];
      assert multiset(rest + tail)[p] == multiset(rest)[p] + multiset(tail)[p];
      WithinDeviationCounts(front, avg, maxDeviation, p);
    }
  }

  /** What `verify_prices` decides for one symbol: `None` omits it. No quote
      omits it, a single quote is used as is, and two or more are averaged,
      filtered and re-averaged; a zero average makes the relative deviation
      divide by zero, which aborts the whole call. */
  function Consensus(values: seq<real>, maxDeviation: real): (r: Result<Option<real>>)
    ensures |values| == 0 ==> r == Ok(None)
    ensures |values| == 1 ==> r == Ok(Some(values[0]))
    ensures r.Err? <==> |values| >= 2 && Sum(values) / |values| as real == 0.0
  {
    if |values| < 2 then
      if |values| > 0 then Ok(Some(values[0])) else Ok(None)
    else
      var avg := Sum(values) / |values| as real;
      if avg == 0.0 then Err("ZeroDivisionError")
      else
        var valid := WithinDeviation(values, avg, maxDeviation);
        if valid == [] then Ok(None) else Ok(Some(Sum(valid) / |valid| as real))
  }

  /** `verify_prices` over the symbols in order: the consensus of each
      symbol's quotes, stored under the symbol when there is one. */
  function VerifyAll(prices: Dict<Dict<real>>, maxDeviation: real): Result<Dict<real>> {
    if prices == [] then Ok([])
    else
      var (symbol, sourcePrices) := prices[|prices| - 1];
      match VerifyAll(prices[..|prices| - 1], maxDeviation)
      case Err(e) => Err(e)
      case Ok(verified) =>
        match Consensus(Values(sourcePrices), maxDeviation)
        case Err(e) => Err(e)
        case Ok(None) => Ok(verified)
        case Ok(Some(p)) => Ok(Put(verified, symbol, p))
  }

  /** `verify_prices`: one pass over the symbols; per symbol, the mean of
      all quotes, a second pass keeping the quotes within the deviation, and
      the mean of those. */
  method VerifyPrices(prices: Dict<Dict<real>>, maxDeviation: real) returns (r: Result<Dict<real>>)
    ensures r == VerifyAll(prices, maxDeviation)
  {
    var verified: Dict<real> := [];
    var i := 0;
    while i < |prices|
      invariant 0 <= i <= |prices|
      invariant VerifyAll(prices[..i], maxDeviation) == Ok(verified)
    {
      assert prices[..i + 1][..i] == prices[..i];
      var (symbol, sourcePrices) := prices[i];
      var c := SymbolConsensus(Values(sourcePrices), maxDeviation);
      if c.Err? {
        r := Err(c.error);
        PrefixError(prices, i + 1, maxDeviation);
        return;
      }
      if c.value.Some? {
        verified := Put(verified, symbol, c.value.value);
      }
      i := i + 1;
    }
    assert prices[..|prices|] == prices;
    r := Ok(verified);
  }

  /** An error on a prefix of the symbols is the error of the whole call. */
  lemma {:induction false} PrefixError(prices: Dict<Dict<real>>, n: nat, maxDeviation: real)
    requires n <= |prices| && VerifyAll(prices[..n], maxDeviation).Err?
    ensures VerifyAll(prices, maxDeviation) == VerifyAll(prices[..n], maxDeviation)
    decreases |prices| - n
  {
    if n < |prices| {
      assert prices[..n + 1][..n] == prices[..n];
      PrefixError(prices, n + 1, maxDeviation);
    } else {
      assert prices[..n] == prices;
    }
  }

  /** One symbol's consensus, with the deviation filter as a loop. */
  method SymbolConsensus(values: seq<real>, maxDeviation: real) returns (r: Result<Option<real>>)
    ensures r == Consensus(values, maxDeviation)
  {
    if |values| < 2 {
      if |values| > 0 {
        return Ok(Some(values[0]));
      }
      return Ok(None);
    }
    var avg := Sum(values) / |values| as real;
    if avg == 0.0 {
      return Err("ZeroDivisionError");
    }
    var valid: seq<real> := [];
    var i := 0;
    while i < |values|
      invariant 0 <= i <= |values|
      invariant valid == WithinDeviation(values[..i], avg, maxDeviation)
    {
      assert values[..i + 1][..i] == values[..i];
      var deviation := Abs(values[i] - avg) / avg;
      if deviation <= maxDeviation {
        valid := valid + [values[i]];
      }
      i := i + 1;
    }
    assert values[..|values|] == values;
    if |valid| > 0 {
      r := Ok(Some(Sum(valid) / |valid| as real));
    } else {
      r := Ok(None);
    }
  }

  /** Only symbols that were given can come out verified. */
  lemma {:induction false} VerifiedKeysSubset(prices: Dict<Dict<real>>, maxDeviation: real)
    requires VerifyAll(prices, maxDeviation).Ok?
    ensures KeySet(VerifyAll(prices, maxDeviation).value) <= KeySet(prices)
  {
    if prices != [] {
      var front := prices[..|prices| - 1];
      VerifiedKeysSubset(front, maxDeviation);
      assert KeySet(front) <= KeySet(prices) by {
        forall k | k in KeySet(front) ensures k in KeySet(prices) {
          var j :| 0 <= j < |front| && front[j].0 == k;
          assert prices[j].0 == k;
        }
      }
      assert prices[|prices| - 1].0 in KeySet(prices);
    }
  }

  /** A symbol whose sources returned exactly two quotes gets their mean or
      nothing: both quotes lie equally far from the mean, so they pass or
      fail the filter together. */
  lemma TwoSources(a: real, b: real, maxDeviation: real)
    requires a + b != 0.0
    ensures Consensus([a, b], maxDeviation) == Ok(Some((a + b) / 2.0))
         || Consensus([a, b], maxDeviation) == Ok(None)
  {
    var values := [a, b];
    assert values[..1] == [a] && [a][..0] == [];
    assert Sum([a]) == a;
    assert Sum(values) == a + b;
    var avg := Sum(values) / 2.0;
    assert avg == (a + b) / 2.0;
    assert Abs(a - avg) == Abs(b - avg);
    var keep := Abs(a - avg) / avg <= maxDeviation;
    assert WithinDeviation([a], avg, maxDeviation) == if keep then [a] else [];
    var valid := WithinDeviation(values, avg, maxDeviation);
    assert valid == if keep then [a, b] else [];
    if keep {
      assert Sum(valid) == a + b;
    }
  }

  /** The unit tests' example: quotes 45000 and 45100 with the default
      deviation give 45050. */
  lemma ConsensusExample()
    ensures Consensus([45000.0, 45100.0], DefaultMaxDeviation) == Ok(Some(45050.0))
  {
    var values := [45000.0, 45100.0];
    assert values[..1] == [45000.0] && values[..1][..0] == [];
    assert Sum(values) == 90100.0;
    assert WithinDeviation([45000.0], 45050.0, DefaultMaxDeviation) == [45000.0];
    assert WithinDeviation(values, 45050.0, DefaultMaxDeviation) == values;
  }

  /** With a positive mean, the consensus of two or more quotes lies within
      `maxDeviation` of the mean of all of them. */
  lemma ConsensusWithinBand(values: seq<real>, maxDeviation: real)
    requires |values| >= 2 && Sum(values) / |values| as real > 0.0
    requires Consensus(values, maxDeviation).Ok? && Consensus(values, maxDeviation).value.Some?
    ensures InBand(Consensus(values, maxDeviation).value.value, Sum(values) / |values| as real, maxDeviation)
  {
    var avg := Sum(values) / |values| as real;
    MeanOfValidWithinBand(values, avg, maxDeviation);
  }

  /** `x` lies within `maxDeviation` of `avg`, relative to `avg`. */
  predicate InBand(x: real, avg: real, maxDeviation: real) {
    Abs(x - avg) <= maxDeviation * avg
  }

  /** The mean of the quotes that pass the filter is within the band too. */
  lemma MeanOfValidWithinBand(values: seq<real>, avg: real, maxDeviation: real)
    requires avg > 0.0 && WithinDeviation(values, avg, maxDeviation) != []
    ensures var valid := WithinDeviation(values, avg, maxDeviation);
      InBand(Sum(valid) / |valid| as real, avg, maxDeviation)
  {
    var band := maxDeviation * avg;
    var valid := WithinDeviation(values, avg, maxDeviation);
    forall i | 0 <= i < |valid|
      ensures avg - band <= valid[i] <= avg + band
    {
      assert valid[i] in valid;
      DeviationBand(valid[i], avg, maxDeviation);
    }
    MeanBounds(valid, avg - band, avg + band);
  }

  lemma DeviationBand(p: real, avg: real, maxDeviation: real)
    requires avg > 0.0 && Abs(p - avg) / avg <= maxDeviation
    ensures avg - maxDeviation * avg <= p <= avg + maxDeviation * avg
  {
    var q := Abs(p - avg) / avg;
    assert q * avg == Abs(p - avg);
    assert q * avg <= maxDeviation * avg;
  }

  // ---------------------------------------------------------------------
  // Fetching and caching

  /** The quotes the sources give for one symbol, in source order; a zero
      quote is falsy and dropped like a missing one. */
  function Collect(sources: seq<string>, symbol: string, fetch: (string, string) -> Option<real>): Dict<real> {
    if sources == [] then []
    else
      var d := Collect(sources[..|sources| - 1], symbol, fetch);
      var source := sources[|sources| - 1];
      var price := fetch(source, symbol);
      if price.Some? && price.value != 0.0 then Put(d, source, price.value) else d
  }

  /** The per-symbol quotes of one fetch round over all sources. */
  function FetchRound(symbol: string, fetch: (string, string) -> Option<real>): Dict<real> {
    Collect(Sources, symbol, fetch)
  }

  /** Every source that answered with a non-zero price appears with it. */
  lemma {:induction false} CollectComplete(sources: seq<string>, symbol: string,
                                           fetch: (string, string) -> Option<real>, k: string)
    requires k in sources && fetch(k, symbol).Some? && fetch(k, symbol).value != 0.0
    ensures Get(Collect(sources, symbol, fetch), k) == fetch(k, symbol)
  {
    var front := sources[..|sources| - 1];
    var source := sources[|sources| - 1];
    if k != source {
      assert sources == front + [source];
      assert k in front;
      CollectComplete(front, symbol, fetch, k);
    }
  }

  /** Exactly the sources that answered with a non-zero price appear, each
      with its price. */
  lemma {:induction false} CollectSound(sources: seq<string>, symbol: string,
                                        fetch: (string, string) -> Option<real>, k: string)
    ensures Get(Collect(sources, symbol, fetch), k).Some? ==>
      k in sources && fetch(k, symbol) == Some(Get(Collect(sources, symbol, fetch), k).value)
      && Get(Collect(sources, symbol, fetch), k).value != 0.0
    ensures k in sources && fetch(k, symbol).Some? && fetch(k, symbol).value != 0.0 ==>
      Get(Collect(sources, symbol, fetch), k) == fetch(k, symbol)
  {
    if k in sources && fetch(k, symbol).Some? && fetch(k, symbol).value != 0.0 {
      CollectComplete(sources, symbol, fetch, k);
    }
    if sources != [] {
      CollectSound(sources[..|sources| - 1], symbol, fetch, k);
      var source := sources[|sources| - 1];
      if k != source && Get(Collect(sources, symbol, fetch), k).Some? {
        assert k in sources[..|sources| - 1];
      }
    }
  }

  /** What a lookup of `symbol` is served: the cached quotes while they are
      younger than `duration`, otherwise a fetch round when it found any. */
  function Served(cache: map<string, Dict<real>>, fetchedAt: map<string, real>, duration: real,
                  symbol: string, fetch: (string, string) -> Option<real>, now: real): Option<Dict<real>>
  {
    if FreshIn(cache, fetchedAt, duration, symbol, now) then Some(cache[symbol])
    else if FetchRound(symbol, fetch) != [] then Some(FetchRound(symbol, fetch))
    else None
  }

  /** The requests one fetch round makes, one per source in order. */
  function RoundRequests(symbol: string): (rs: seq<(string, string)>)
    ensures forall source :: source in Sources ==> (source, symbol) in rs
    ensures forall k :: 0 <= k < |rs| ==> rs[k].1 == symbol
  {
    var rs := seq(|Sources|, k requires 0 <= k < |Sources| => (Sources[k], symbol));
    assert rs[0] == ("coingecko", symbol) && rs[1] == ("coinbase", symbol);
    rs
  }

  /** The inner loop of `get_prices`: ask every source in turn and keep the
      non-zero prices under the source's name. */
  method FetchSymbol(symbol: string, fetch: (string, string) -> Option<real>)
    returns (symbolResults: Dict<real>, asked: seq<(string, string)>)
    ensures symbolResults == FetchRound(symbol, fetch)
    ensures asked == RoundRequests(symbol)
  {
    symbolResults := [];
    asked := [];
    var j := 0;
    while j < |Sources|
      invariant 0 <= j <= |Sources|
      invariant symbolResults == Collect(Sources[..j], symbol, fetch)
      invariant asked == RoundRequests(symbol)[..j]
    {
      assert Sources[..j + 1][..j] == Sources[..j];
      var source := Sources[j];
      asked := asked + [(source, symbol)];
      var price := fetch(source, symbol);
      if price.Some? && price.value != 0.0 {
        symbolResults := Put(symbolResults, source, price.value);
      }
      j := j + 1;
    }
    assert Sources[..|Sources|] == Sources;
  }

  class PriceFetcher {
    var priceCache: map<string, Dict<real>>
    var lastFetchTime: map<string, real>
    const cacheDuration: real

    /** An empty cache that keeps entries for five minutes. */
    constructor()
      ensures priceCache == map[] && lastFetchTime == map[] && cacheDuration == 300.0
    {
      priceCache := map[];
      lastFetchTime := map[];
      cacheDuration := 300.0;
    }

    /** `_is_cache_valid`: the symbol has both a cached entry and a fetch
        time, and the entry is younger than the cache duration. */
    predicate IsCacheValid(symbol: string, now: real)
      reads this
    {
      symbol in priceCache && symbol in lastFetchTime && now - lastFetchTime[symbol] < cacheDuration
    }

    /** `_update_cache`: stores the quotes and the time for this symbol only;
        the entry then stays valid for exactly the cache duration. */
    method UpdateCache(symbol: string, prices: Dict<real>, now: real)
      modifies this
      ensures priceCache == old(priceCache)[symbol := prices]
      ensures lastFetchTime == old(lastFetchTime)[symbol := now]
      ensures forall t :: IsCacheValid(symbol, t) <==> t - now < cacheDuration
      ensures forall s, t :: s != symbol ==> (IsCacheValid(s, t) <==> old(IsCacheValid(s, t)))
    {
      priceCache := priceCache[symbol := prices];
      lastFetchTime := lastFetchTime[symbol := now];
    }

    /** `get_prices`: each symbol is served from a valid cache entry without
        any request, or else every source is asked and the symbol is stored
        and cached only when some source gave a price. `requests` lists the
        (source, symbol) requests in order. */
    method GetPrices(symbols: seq<string>, fetch: (string, string) -> Option<real>, now: real)
      returns (results: Dict<Dict<real>>, requests: seq<(string, string)>)
      requires cacheDuration > 0.0
      modifies this
      ensures forall s :: s in symbols ==>
        Get(results, s) == Served(old(priceCache), old(lastFetchTime), cacheDuration, s, fetch, now)
      ensures forall s :: s !in symbols ==> Get(results, s).None?
      ensures forall k :: 0 <= k < |requests| ==>
        requests[k].1 in symbols && !old(IsCacheValid(requests[k].1, now))
      ensures forall s :: s in symbols && !old(IsCacheValid(s, now)) ==>
        forall source :: source in Sources ==> (source, s) in requests
      ensures forall s :: s in symbols ==>
        (IsCacheValid(s, now) <==> Served(old(priceCache), old(lastFetchTime), cacheDuration, s, fetch, now).Some?)
      ensures forall s :: s in symbols && IsCacheValid(s, now) ==>
        priceCache[s] == Served(old(priceCache), old(lastFetchTime), cacheDuration, s, fetch, now).value
      ensures forall s :: s !in symbols ==>
        (s in priceCache <==> s in old(priceCache)) && (s in priceCache ==> priceCache[s] == old(priceCache)[s])
        && (s in lastFetchTime <==> s in old(lastFetchTime))
        && (s in lastFetchTime ==> lastFetchTime[s] == old(lastFetchTime)[s])
      ensures forall s :: s in symbols ==>
        KeptOrRefreshed(priceCache, lastFetchTime, old(priceCache), old(lastFetchTime), cacheDuration, s, fetch, now)
    {
      ghost var cache0 := priceCache;
      ghost var time0 := lastFetchTime;
      results := [];
      requests := [];
      var i := 0;
      while i < |symbols|
        invariant 0 <= i <= |symbols|
        invariant forall s :: s in symbols[..i] ==>
          ServedIn(priceCache, lastFetchTime, cacheDuration, results, s, Served(cache0, time0, cacheDuration, s, fetch, now), now)
        invariant forall s :: s !in symbols[..i] ==>
          Get(results, s).None? && SameEntry(priceCache, lastFetchTime, cache0, time0, s)
        invariant forall s :: s in symbols[..i] ==>
          KeptOrRefreshed(priceCache, lastFetchTime, cache0, time0, cacheDuration, s, fetch, now)
        invariant forall k :: 0 <= k < |requests| ==>
          requests[k].1 in symbols[..i] && !FreshIn(cache0, time0, cacheDuration, requests[k].1, now)
        invariant forall s :: s in symbols[..i] && !FreshIn(cache0, time0, cacheDuration, s, now) ==>
          forall source :: source in Sources ==> (source, s) in requests
      {
        var symbol := symbols[i];
        assert symbols[..i + 1] == symbols[..i] + [symbol];
        ghost var results0, cache1, time1, requests0 := results, priceCache, lastFetchTime, requests;
        ghost var served := Served(cache0, time0, cacheDuration, symbol, fetch, now);
        ghost var stale := !FreshIn(cache1, time1, cacheDuration, symbol, now);
        if symbol in symbols[..i] {
          assert ServedIn(cache1, time1, cacheDuration, results0, symbol, served, now);
          assert Served(cache1, time1, cacheDuration, symbol, fetch, now) == served;
          assert stale ==> !FreshIn(cache0, time0, cacheDuration, symbol, now);
        } else {
          assert SameEntry(cache1, time1, cache0, time0, symbol);
        }
        var asked;
        results, asked := ServeSymbol(symbol, fetch, now, results);
        requests := requests + asked;
        forall s | s in symbols[..i + 1]
          ensures ServedIn(priceCache, lastFetchTime, cacheDuration, results, s, Served(cache0, time0, cacheDuration, s, fetch, now), now)
          ensures KeptOrRefreshed(priceCache, lastFetchTime, cache0, time0, cacheDuration, s, fetch, now)
        {
          if s != symbol {
            assert s in symbols[..i];
            FramePreservesServed(cache1, time1, priceCache, lastFetchTime, cacheDuration, results0, results, s,
                                 Served(cache0, time0, cacheDuration, s, fetch, now), now);
          } else if symbol in symbols[..i] {
            RefreshedStaysFresh(priceCache, lastFetchTime, cache1, time1, cache0, time0, cacheDuration, s, fetch, now);
          }
        }
        forall s | s !in symbols[..i + 1]
          ensures Get(results, s).None? && SameEntry(priceCache, lastFetchTime, cache0, time0, s)
        {
          assert s != symbol && s !in symbols[..i];
          assert SameEntry(priceCache, lastFetchTime, cache1, time1, s);
        }
        forall k | 0 <= k < |requests|
          ensures requests[k].1 in symbols[..i + 1] && !FreshIn(cache0, time0, cacheDuration, requests[k].1, now)
        {
          if k >= |requests0| {
            assert requests[k] == asked[k - |requests0|];
          }
        }
        i := i + 1;
      }
      assert symbols[..|symbols|] == symbols;
    }

    /** One iteration of `get_prices`: serve `symbol` from a valid cache
        entry without any request, or else run a fetch round and, when it
        found prices, store them in the results and the cache. */
    method ServeSymbol(symbol: string, fetch: (string, string) -> Option<real>, now: real,
                       results: Dict<Dict<real>>)
      returns (results': Dict<Dict<real>>, asked: seq<(string, string)>)
      requires cacheDuration > 0.0
      requires !IsCacheValid(symbol, now) ==> Get(results, symbol).None?
      modifies this
      ensures ServedIn(priceCache, lastFetchTime, cacheDuration, results', symbol,
                       Served(old(priceCache), old(lastFetchTime), cacheDuration, symbol, fetch, now), now)
      ensures forall s :: s != symbol ==> Get(results', s) == Get(results, s)
      ensures forall s :: s != symbol ==> SameEntry(priceCache, lastFetchTime, old(priceCache), old(lastFetchTime), s)
      ensures KeptOrRefreshed(priceCache, lastFetchTime, old(priceCache), old(lastFetchTime), cacheDuration, symbol, fetch, now)
      ensures old(IsCacheValid(symbol, now)) ==> asked == []
      ensures !old(IsCacheValid(symbol, now)) ==> asked == RoundRequests(symbol)
    {
      if IsCacheValid(symbol, now) {
        results' := Put(results, symbol, priceCache[symbol]);
        asked := [];
      } else {
        var symbolResults;
        symbolResults, asked := FetchSymbol(symbol, fetch);
        results' := results;
        if symbolResults != [] {
          results' := Put(results, symbol, symbolResults);
          UpdateCache(symbol, symbolResults, now);
        }
      }
    }
  }

  /** After a lookup: the results hold `served` for `s`, and the cache holds
      it, still fresh, exactly when there is something to serve. */
  ghost predicate ServedIn(cache: map<string, Dict<real>>, fetchedAt: map<string, real>, duration: real,
                           results: Dict<Dict<real>>, s: string, served: Option<Dict<real>>, now: real)
  {
    && Get(results, s) == served
    && (FreshIn(cache, fetchedAt, duration, s, now) <==> served.Some?)
    && (FreshIn(cache, fetchedAt, duration, s, now) ==> cache[s] == served.value)
  }

  /** The cache entry of `s` once it has been served: a valid entry, and a
      stale one whose fetch round found nothing, stay as they were, entry
      and fetch time alike; a round that found prices is stored and
      stamped `now`. */
  ghost predicate KeptOrRefreshed(cache: map<string, Dict<real>>, fetchedAt: map<string, real>,
                                  cache0: map<string, Dict<real>>, fetchedAt0: map<string, real>, duration: real,
                                  s: string, fetch: (string, string) -> Option<real>, now: real)
  {
    if !FreshIn(cache0, fetchedAt0, duration, s, now) && FetchRound(s, fetch) != [] then
      s in cache && cache[s] == FetchRound(s, fetch) && s in fetchedAt && fetchedAt[s] == now
    else
      SameEntry(cache, fetchedAt, cache0, fetchedAt0, s)
  }

  /** Serving a symbol a second time in the same call leaves its entry as
      the first time left it: that entry is valid at `now`. */
  lemma RefreshedStaysFresh(cache2: map<string, Dict<real>>, fetchedAt2: map<string, real>,
                            cache1: map<string, Dict<real>>, fetchedAt1: map<string, real>,
                            cache0: map<string, Dict<real>>, fetchedAt0: map<string, real>, duration: real,
                            s: string, fetch: (string, string) -> Option<real>, now: real)
    requires duration > 0.0
    requires KeptOrRefreshed(cache1, fetchedAt1, cache0, fetchedAt0, duration, s, fetch, now)
    requires KeptOrRefreshed(cache2, fetchedAt2, cache1, fetchedAt1, duration, s, fetch, now)
    ensures KeptOrRefreshed(cache2, fetchedAt2, cache0, fetchedAt0, duration, s, fetch, now)
  {
    if !FreshIn(cache0, fetchedAt0, duration, s, now) && FetchRound(s, fetch) != [] {
      assert FreshIn(cache1, fetchedAt1, duration, s, now);
    } else {
      assert FreshIn(cache1, fetchedAt1, duration, s, now) == FreshIn(cache0, fetchedAt0, duration, s, now);
    }
  }

  lemma FramePreservesServed(cache0: map<string, Dict<real>>, fetchedAt0: map<string, real>,
                             cache: map<string, Dict<real>>, fetchedAt: map<string, real>, duration: real,
                             results0: Dict<Dict<real>>, results: Dict<Dict<real>>, s: string,
                             served: Option<Dict<real>>, now: real)
    requires ServedIn(cache0, fetchedAt0, duration, results0, s, served, now)
    requires SameEntry(cache, fetchedAt, cache0, fetchedAt0, s) && Get(results, s) == Get(results0, s)
    ensures ServedIn(cache, fetchedAt, duration, results, s, served, now)
  {
  }
}
