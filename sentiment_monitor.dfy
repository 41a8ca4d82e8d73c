/** The LunarCrush sentiment monitor: a live galaxy score fetched with a
    bounded retry, written through to a JSON cache file, and the cached
    score as the fallback when the live score cannot be had. The HTTP
    requests are an oracle from URL and attempt number to the outcome; the
    cache file is a value held by a store object. */
module SentimentMonitor {
  import opened Common

  /** A reply that got through `raise_for_status`: its body decoded as JSON,
      or `None` when the body is not JSON. */
  datatype Reply = Reply(json: Option<Json>)

  /** One request: the attempt number is part of the question, so that an
      endpoint may fail and then recover. */
  type Http = (string, nat) -> Result<Reply>

  /** The number of attempts `_retry_get` makes by default. */
  const DefaultAttempts: nat := 3

  // ---------------------------------------------------------------------
  // `_retry_get`
  // ---------------------------------------------------------------------

  /** The pause after failed attempt `i`: 0.5 seconds doubled per attempt. */
  function Delay(i: nat): (d: real)
    ensures d >= 0.5
  {
    if i == 0 then 0.5 else 2.0 * Delay(i - 1)
  }

  /** The pauses taken after the first `m` failed attempts. */
  function Backoff(m: nat): (ds: seq<real>)
    ensures |ds| == m && forall j :: 0 <= j < m ==> ds[j] == Delay(j)
  {
    seq(m, j requires 0 <= j < m => Delay(j))
  }

  /** The first attempt at or after `i` that succeeds, or `attempts` when
      none does. */
  function FirstSuccess(http: Http, url: string, attempts: nat, i: nat): (k: nat)
    requires i <= attempts
    ensures i <= k <= attempts
    ensures forall j :: i <= j < k ==> http(url, j).Err?
    ensures k < attempts ==> http(url, k).Ok?
    decreases attempts - i
  {
    if i == attempts then attempts
    else if http(url, i).Ok? then i
    else FirstSuccess(http, url, attempts, i + 1)
  }

  /** What `_retry_get` returns or raises: the first successful reply; the
      last error when every attempt fails; and, with no attempt at all, the
      TypeError of raising `None`. */
  function Retried(http: Http, url: string, attempts: nat): (r: Result<Reply>)
    ensures r.Ok? <==> exists j :: 0 <= j < attempts && http(url, j).Ok?
    ensures attempts == 0 ==> r == Err("TypeError")
    ensures attempts > 0 && r.Err? ==> r == http(url, attempts - 1)
  {
    var k := FirstSuccess(http, url, attempts, 0);
    if k < attempts then http(url, k)
    else if attempts == 0 then Err("TypeError")
    else http(url, attempts - 1)
  }

  /** `_retry_get`: ask until one attempt succeeds or `attempts` have
      failed, pausing between attempts but not after the last one. The
      pauses are returned instead of slept. */
  method RetryGet(http: Http, url: string, attempts: nat)
    returns (r: Result<Reply>, requests: nat, pauses: seq<real>)
    ensures r == Retried(http, url, attempts)
    ensures requests <= attempts
    ensures r.Ok? ==> requests > 0 && r == http(url, requests - 1)
                      && forall j :: 0 <= j < requests - 1 ==> http(url, j).Err?
    ensures r.Err? ==> requests == attempts && forall j :: 0 <= j < attempts ==> http(url, j).Err?
    ensures pauses == Backoff(if requests == 0 then 0 else requests - 1)
  {
    var lastErr: Option<string> := None;
    requests, pauses := 0, [];
    var i := 0;
    while i < attempts
      invariant i <= attempts && requests == i
      invariant forall j :: 0 <= j < i ==> http(url, j).Err?
      invariant FirstSuccess(http, url, attempts, 0) == FirstSuccess(http, url, attempts, i)
      invariant lastErr == (if i == 0 then None else Some(http(url, i - 1).error))
      invariant pauses == Backoff(if i == attempts && i > 0 then i - 1 else i)
    {
      var outcome := http(url, i);
      requests := requests + 1;
      if outcome.Ok? {
        r := outcome;
        return;
      }
      lastErr := Some(outcome.error);
      if i < attempts - 1 {
        pauses := pauses + [Delay(i)];
      }
      i := i + 1;
    }
    r := if lastErr.None? then Err("TypeError") else Err(lastErr.value);
  }

  // ---------------------------------------------------------------------
  // `fetch_lunarcrush_sentiment`
  // ---------------------------------------------------------------------

  /** `not api_key` is false: a key is given and it is not empty. */
  predicate KeyGiven(apiKey: Option<string>) {
    apiKey.Some? && apiKey.value != ""
  }

  function SentimentUrl(symbol: string, apiKey: string): string {
    "https://api.lunarcrush.com/v2?data=assets&symbol=" + symbol + "&key=" + apiKey
  }

  /** The payload handling: `data.get("data") or []` must be a non-empty
      list whose first element is an object, whose `galaxy_score` is the
      score; an empty or missing asset list is no score. Any other shape
      raises as Python would index and `.get` it. */
  function AssetScore(data: Json): (r: Result<Option<Json>>)
    ensures !data.JObj? ==> r == Err("AttributeError")
    ensures data.JObj? && !(Field(data.fields, "data").Some? && Truthy(Field(data.fields, "data").value))
            ==> r == Ok(None)
    ensures r.Ok? && r.value.Some? ==>
              && data.JObj? && Field(data.fields, "data").Some?
              && var assets := Field(data.fields, "data").value;
              && assets.JArr? && assets.items != [] && assets.items[0].JObj?
              && r.value == Field(assets.items[0].fields, "galaxy_score")
    ensures r.Ok? && r.value.Some? ==> r.value.value != JNull
  {
    match data
    case JObj(fields) =>
      var assets := OrElse(Field(fields, "data"), JArr([]));
      if !Truthy(assets) then Ok(None)
      else
        (match assets
         case JArr(items) =>
           (match items[0]
            case JObj(first) => Ok(Field(first, "galaxy_score"))
            case _ => Err("AttributeError"))
         case JObj(_) => Err("KeyError")
         case JStr(_) => Err("AttributeError")
         case _ => Err("TypeError"))
    case _ => Err("AttributeError")
  }

  /** A payload with one asset gives that asset's galaxy score; an empty
      asset list, a null one and a missing one give no score. */
  lemma AssetScoreExamples()
    ensures AssetScore(JObj([("data", JArr([JObj([("galaxy_score", JNum(61.0))])]))])) == Ok(Some(JNum(61.0)))
    ensures AssetScore(JObj([("data", JArr([]))])) == Ok(None)
    ensures AssetScore(JObj([("data", JNull)])) == Ok(None)
    ensures AssetScore(JObj([])) == Ok(None)
    ensures AssetScore(JObj([("data", JObj([("galaxy_score", JNum(61.0))]))])) == Err("KeyError")
  {
    assert Get([("galaxy_score", JNum(61.0))], "galaxy_score") == Some(JNum(61.0));
    assert Get([("data", JArr([JObj([("galaxy_score", JNum(61.0))])]))], "data")
        == Some(JArr([JObj([("galaxy_score", JNum(61.0))])]));
    assert Get([("data", JArr([]))], "data") == Some(JArr([]));
    assert Get([("data", JObj([("galaxy_score", JNum(61.0))]))], "data") == Some(JObj([("galaxy_score", JNum(61.0))]));
  }

  /** What `fetch_lunarcrush_sentiment` returns or raises. */
  function Fetched(symbol: string, apiKey: Option<string>, http: Http): (r: Result<Option<Json>>)
    ensures !KeyGiven(apiKey) ==> r == Err("ValueError")
    ensures KeyGiven(apiKey) && Retried(http, SentimentUrl(symbol, apiKey.value), DefaultAttempts).Err?
            ==> r == Err(Retried(http, SentimentUrl(symbol, apiKey.value), DefaultAttempts).error)
    ensures r.Ok? && r.value.Some? ==> r.value.value != JNull
  {
    if !KeyGiven(apiKey) then Err("ValueError")
    else
      match Retried(http, SentimentUrl(symbol, apiKey.value), DefaultAttempts)
      case Err(e) => Err(e)
      case Ok(reply) =>
        match reply.json
        case None => Err("JSONDecodeError")
        case Some(data) => AssetScore(data)
  }

  /** `fetch_lunarcrush_sentiment`, asking through the retry loop. */
  method FetchLunarCrushSentiment(symbol: string, apiKey: Option<string>, http: Http)
    returns (r: Result<Option<Json>>)
    ensures r == Fetched(symbol, apiKey, http)
  {
    if !KeyGiven(apiKey) {
      return Err("ValueError");
    }
    var reply, _, _ := RetryGet(http, SentimentUrl(symbol, apiKey.value), DefaultAttempts);
    if reply.Err? {
      return Err(reply.error);
    }
    if reply.value.json.None? {
      return Err("JSONDecodeError");
    }
    r := AssetScore(reply.value.json.value);
  }

  // ---------------------------------------------------------------------
  // The cache file
  // ---------------------------------------------------------------------

  /** A JSON value that is not an object. */
  type NonObject = v: Json | !v.JObj? witness JNull

  /** The cache file on disk: absent, present but not loadable, a JSON
      object from symbol to entry, or some other JSON value (a list, a
      number, a string, a boolean or `null`). */
  datatype CacheFile = Missing | Unreadable | Stored(entries: map<string, Json>) | Other(value: NonObject)

  /** What `_read_cache` hands back: a dict of entries, or the non-object
      value `json.load` read. */
  datatype Loaded = Entries(entries: map<string, Json>) | NonDict(value: NonObject)

  /** `_read_cache`: whatever the file holds, or the empty dict when the
      file is missing or cannot be loaded. */
  function CacheContents(file: CacheFile): (loaded: Loaded)
    ensures file.Missing? || file.Unreadable? ==> loaded == Entries(map[])
    ensures loaded.Entries? <==> !file.Other?
    ensures file.Stored? ==> loaded.entries == file.entries
    ensures file.Other? ==> loaded.value == file.value
  {
    match file
    case Stored(entries) => Entries(entries)
    case Other(value) => NonDict(value)
    case _ => Entries(map[])
  }

  /** The entry `cache_sentiment` writes. */
  function ScoreEntry(score: Json): Json {
    JObj([("score", score)])
  }

  /** `cache_sentiment`: the file it leaves behind, or the exception it
      raises. Setting a key on a value that is not a dict is a TypeError;
      a file that cannot be opened for writing (`writable` false) is an
      OSError and is left as it was. On success only the symbol's entry is
      set to the new score. */
  function CacheWrite(file: CacheFile, writable: bool, symbol: string, score: Json): (r: Result<CacheFile>)
    ensures r.Ok? <==> !file.Other? && writable
    ensures file.Other? ==> r == Err("TypeError")
    ensures !file.Other? && !writable ==> r == Err("OSError")
    ensures r.Ok? ==> r.value.Stored? && r.value.entries.Keys == CacheContents(file).entries.Keys + {symbol}
    ensures r.Ok? ==> r.value.entries[symbol] == ScoreEntry(score)
    ensures r.Ok? ==> forall s :: s in CacheContents(file).entries && s != symbol ==>
                        r.value.entries[s] == CacheContents(file).entries[s]
  {
    match CacheContents(file)
    case NonDict(_) => Err("TypeError")
    case Entries(cache) =>
      if !writable then Err("OSError")
      else Ok(Stored(cache[symbol := ScoreEntry(score)]))
  }

  /** The fallback of `get_sentiment`: a value that is not a dict has no
      `get`; in a dict, a falsy or absent entry is no score, an object
      entry gives its `score`, and any other truthy entry has no `get`. */
  function CachedScore(loaded: Loaded, symbol: string): (r: Result<Option<Json>>)
    ensures loaded.NonDict? ==> r == Err("AttributeError")
    ensures loaded.Entries? && symbol !in loaded.entries ==> r == Ok(None)
    ensures r.Ok? && r.value.Some? ==>
              loaded.Entries? && symbol in loaded.entries && loaded.entries[symbol].JObj?
              && r.value == Field(loaded.entries[symbol].fields, "score")
    ensures r.Err? <==>
              loaded.NonDict?
              || (symbol in loaded.entries && Truthy(loaded.entries[symbol]) && !loaded.entries[symbol].JObj?)
  {
    match loaded
    case NonDict(_) => Err("AttributeError")
    case Entries(cache) =>
      if symbol !in cache || !Truthy(cache[symbol]) then Ok(None)
      else
        match cache[symbol]
        case JObj(fields) => Ok(Field(fields, "score"))
        case _ => Err("AttributeError")
  }

  /** `get_sentiment` as a value: the answer and the cache file afterwards.
      A live score is attempted only with a non-empty key, and a live score
      is written through before it is returned; when there is none, or
      writing it raised, the answer falls back to the file as it was. */
  function Sentiment(file: CacheFile, writable: bool, symbol: string, apiKey: string, http: Http)
    : (out: (Result<Option<Json>>, CacheFile))
  {
    var live := if apiKey != "" then Fetched(symbol, Some(apiKey), http) else Ok(None);
    if live.Ok? && live.value.Some? && CacheWrite(file, writable, symbol, live.value.value).Ok? then
      (Ok(live.value), CacheWrite(file, writable, symbol, live.value.value).value)
    else (CachedScore(CacheContents(file), symbol), file)
  }

  /** A live score is returned when the cache can take it, and the cache
      then answers the same score for that symbol without asking the
      network. */
  lemma LiveScoreWrittenThrough(file: CacheFile, writable: bool, symbol: string, apiKey: string, http: Http)
    requires apiKey != "" && Fetched(symbol, Some(apiKey), http).Ok?
    requires Fetched(symbol, Some(apiKey), http).value.Some?
    requires writable && !file.Other?
    ensures Sentiment(file, writable, symbol, apiKey, http).0 == Fetched(symbol, Some(apiKey), http)
    ensures CachedScore(CacheContents(Sentiment(file, writable, symbol, apiKey, http).1), symbol)
            == Fetched(symbol, Some(apiKey), http)
  {
    var score := Fetched(symbol, Some(apiKey), http).value.value;
    assert Get([("score", score)], "score") == Some(score);
  }

  /** Without a key, or when the live fetch raises, finds no score or
      cannot be written, the answer is the cached one and the file is left
      as it was. */
  lemma FallbackReadsCache(file: CacheFile, writable: bool, symbol: string, apiKey: string, http: Http)
    requires apiKey == "" || Fetched(symbol, Some(apiKey), http).Err?
             || Fetched(symbol, Some(apiKey), http).value.None? || !writable || file.Other?
    ensures Sentiment(file, writable, symbol, apiKey, http) == (CachedScore(CacheContents(file), symbol), file)
  {
  }

  /** A missing or unreadable cache with no live score gives no score. */
  lemma NothingToFallBackOn(file: CacheFile, writable: bool, symbol: string, apiKey: string, http: Http)
    requires file.Missing? || file.Unreadable?
    requires apiKey == "" || !Fetched(symbol, Some(apiKey), http).Ok?
             || Fetched(symbol, Some(apiKey), http).value.None? || !writable
    ensures Sentiment(file, writable, symbol, apiKey, http) == (Ok(None), file)
  {
  }

  /** A cache file holding JSON that is not an object makes `get_sentiment`
      raise AttributeError whatever the network answers: a live score
      cannot be cached (TypeError, caught), and the fallback has no `get`. */
  lemma NonObjectCacheRaises(file: CacheFile, writable: bool, symbol: string, apiKey: string, http: Http)
    requires file.Other?
    ensures Sentiment(file, writable, symbol, apiKey, http) == (Err("AttributeError"), file)
  {
  }

  /** The cache file and the operations that read and write it. Whether the
      file system lets the file be opened for writing is fixed for the
      store's lifetime. */
  class SentimentStore {
    var file: CacheFile
    const writable: bool

    constructor(file: CacheFile, writable: bool)
      ensures this.file == file && this.writable == writable
    {
      this.file := file;
      this.writable := writable;
    }

    /** `_read_cache`. */
    method ReadCache() returns (loaded: Loaded)
      ensures loaded == CacheContents(file)
    {
      match file
      case Stored(entries) => loaded := Entries(entries);
      case Other(value) => loaded := NonDict(value);
      case _ => loaded := Entries(map[]);
    }

    /** `cache_sentiment`: read, set the one entry, write back; `error` is
        the exception raised, if any, and then the file is unchanged. */
    method CacheSentiment(symbol: string, score: Json) returns (error: Option<string>)
      modifies this
      ensures CacheWrite(old(file), writable, symbol, score).Ok? ==>
                error.None? && file == CacheWrite(old(file), writable, symbol, score).value
      ensures CacheWrite(old(file), writable, symbol, score).Err? ==>
                error == Some(CacheWrite(old(file), writable, symbol, score).error) && file == old(file)
    {
      var loaded := ReadCache();
      match loaded
      case NonDict(_) =>
        return Some("TypeError");
      case Entries(cache) =>
        cache := cache[symbol := ScoreEntry(score)];
        if !writable {
          return Some("OSError");
        }
        file := Stored(cache);
        error := None;
    }

    /** `get_sentiment`, with the key the environment gives (empty when
        unset). */
    method GetSentiment(symbol: string, apiKey: string, http: Http) returns (r: Result<Option<Json>>)
      modifies this
      ensures (r, file) == Sentiment(old(file), writable, symbol, apiKey, http)
    {
      if apiKey != "" {
        var score := FetchLunarCrushSentiment(symbol, Some(apiKey), http);
        if score.Ok? && score.value.Some? {
          var error := CacheSentiment(symbol, score.value.value);
          if error.None? {
            return score;
          }
        }
      }
      var loaded := ReadCache();
      match loaded
      case NonDict(_) =>
        r := Err("AttributeError");
      case Entries(cache) =>
        if symbol !in cache || !Truthy(cache[symbol]) {
          return Ok(None);
        }
        match cache[symbol]
        case JObj(fields) => r := Ok(Field(fields, "score"));
        case _ => r := Err("AttributeError");
    }
  }
}
