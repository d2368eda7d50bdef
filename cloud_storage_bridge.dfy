/** The URL-keyed fetch cache and its value types (packages/src/cloud_storage_bridge.rs). */
module CloudStorage {
  import opened Wrappers
  import opened Numeric
  import opened Provider
  import opened Chunking

  datatype HttpMethod = Get | Head

  /** `CloudDataRequest`: the URL and the HTTP method (`method`) handed to the transport. */
  datatype Request = Request(url: string, verb: HttpMethod)

  /** The response's `headers` object, passed through without being read. */
  datatype Headers = Headers(entries: seq<(string, string)>)

  /** What the host transport yields for a request: an error it raised, or a response with an
      optional numeric status, its headers and its full body. */
  datatype Reply = Failure(reason: string) | Response(status: Option<u16>, headers: Headers, body: Bytes)

  /** The injected `js_http_client`, called as `(url, { method })`. */
  type Transport = Request -> Reply

  /** Status recorded when the response carries no numeric `status`. */
  const DEFAULT_STATUS: u16 := 200

  /** `CloudDataResponse`: a cache entry. */
  datatype CloudDataResponse = CloudDataResponse(data: Bytes, status: u16, provider: string)

  /** The `request_cache`: keyed by the URL string exactly as the caller passed it. */
  type Cache = map<string, CloudDataResponse>

  /** The object `fetch_cloud_metadata` builds. */
  datatype Metadata = Metadata(status: Option<u16>, headers: Headers, provider: string)

  /** `entry` is what a successful GET of `url` records: the body, the status (200 when absent)
      and the provider classified from `url`. */
  ghost predicate RecordedFrom(url: string, reply: Reply, entry: CloudDataResponse) {
    && reply.Response?
    && entry == CloudDataResponse(reply.body, reply.status.GetOr(DEFAULT_STATUS), DetectProvider(url))
  }

  /** Every cached URL holds exactly what a GET of that very URL string returned. */
  ghost predicate Consistent(cache: Cache, transport: Transport) {
    forall url :: url in cache ==> RecordedFrom(url, transport(Request(url, Get)), cache[url])
  }

  /** `fetch_cloud_data` as a transition: the result and the cache afterwards. A hit answers
      from the cache; a miss issues a GET and records the reply only if it succeeded. */
  function Fetch(cache: Cache, url: string, transport: Transport): (out: (Result<Bytes, string>, Cache))
    ensures url in cache ==> out.0 == Ok(cache[url].data)
    ensures url !in cache ==> match transport(Request(url, Get))
                              case Failure(reason) => out.0 == Err(reason)
                              case Response(_, _, body) => out.0 == Ok(body)
    ensures out.1.Keys == if out.0.Ok? then cache.Keys + {url} else cache.Keys
    ensures forall u :: u in cache ==> out.1[u] == cache[u]
    ensures out.0.Ok? ==> out.1[url].data == out.0.value
    ensures url !in cache && out.0.Ok? ==> RecordedFrom(url, transport(Request(url, Get)), out.1[url])
    ensures |out.1| == |cache| + (if url !in cache && out.0.Ok? then 1 else 0)
  {
    if url in cache then (Ok(cache[url].data), cache)
    else
      match transport(Request(url, Get))
      case Failure(reason) => (Err(reason), cache)
      case Response(status, _, body) =>
        var entry := CloudDataResponse(body, status.GetOr(DEFAULT_STATUS), DetectProvider(url));
        assert (cache[url := entry]).Keys == cache.Keys + {url};
        (Ok(body), cache[url := entry])
  }

  /** A hit makes no transport call: its outcome is the same whatever the transport would answer. */
  lemma HitIgnoresTransport(cache: Cache, url: string, t1: Transport, t2: Transport)
    requires url in cache
    ensures Fetch(cache, url, t1) == Fetch(cache, url, t2) == (Ok(cache[url].data), cache)
  {
  }

  /** A failed transport call leaves the cache as it was. */
  lemma FailureKeepsCache(cache: Cache, url: string, transport: Transport)
    requires Fetch(cache, url, transport).0.Err?
    ensures Fetch(cache, url, transport).1 == cache
  {
    assert Fetch(cache, url, transport).1.Keys == cache.Keys;
  }

  /** Fetching the same URL again, with no clear in between, is a hit that returns the same bytes,
      whatever the transport would now answer. */
  lemma RefetchIsHit(cache: Cache, url: string, t1: Transport, t2: Transport)
    requires Fetch(cache, url, t1).0.Ok?
    ensures url in Fetch(cache, url, t1).1
    ensures Fetch(Fetch(cache, url, t1).1, url, t2) == Fetch(cache, url, t1)
  {
    var (r, after) := Fetch(cache, url, t1);
    assert url in after.Keys;
    HitIgnoresTransport(after, url, t2, t1);
  }

  /** Fetching keeps the cache consistent with the transport. */
  lemma FetchKeepsConsistent(cache: Cache, url: string, transport: Transport)
    requires Consistent(cache, transport)
    ensures Consistent(Fetch(cache, url, transport).1, transport)
  {
    var after := Fetch(cache, url, transport).1;
    forall u | u in after ensures RecordedFrom(u, transport(Request(u, Get)), after[u]) {
      if u in cache {
        assert after[u] == cache[u];
      } else {
        assert u == url;
      }
    }
  }

  /** The cache is transparent: with a consistent cache, a fetch returns exactly what a fetch on an
      empty cache (one that always calls the transport) returns. */
  lemma CacheIsTransparent(cache: Cache, url: string, transport: Transport)
    requires Consistent(cache, transport)
    ensures Fetch(cache, url, transport).0 == Fetch(map[], url, transport).0
  {
    if url in cache {
      assert RecordedFrom(url, transport(Request(url, Get)), cache[url]);
    }
  }

  /** No two positions hold the same element. */
  ghost predicate Distinct<T>(s: seq<T>) {
    forall i, j :: 0 <= i < j < |s| ==> s[i] != s[j]
  }

  /** `CloudDataBuffer`: caller-held bytes tagged with where they came from. */
  datatype CloudDataBuffer = CloudDataBuffer(data: Bytes, sourceUrl: string, provider: string) {

    /** `length` */
    function Length(): (n: nat)
      ensures n == |data|
    {
      |data|
    }

    /** `slice`: clamps `end` to the length and then `start` to `end`, so it never fails; the
        result has `min(end, len) - start` bytes (none when that is not positive), read from `start` on. */
    function Slice(start: nat, end: nat): (s: Bytes)
      ensures |s| == if Min(end, |data|) > start then Min(end, |data|) - start else 0
      ensures forall i :: 0 <= i < |s| ==> start + i < |data| && s[i] == data[start + i]
    {
      var hi := Min(end, |data|);
      var lo := Min(start, hi);
      data[lo..hi]
    }
  }

  /** In range, `Slice` is plain slicing. */
  lemma SliceInBounds(buffer: CloudDataBuffer, start: nat, end: nat)
    requires start <= end <= |buffer.data|
    ensures buffer.Slice(start, end) == buffer.data[start..end]
  {
  }

  /** Slices that run past the end stop at the end; slices that run backwards are empty. */
  lemma SliceClamps(buffer: CloudDataBuffer, start: nat, end: nat)
    ensures end >= |buffer.data| ==> buffer.Slice(start, end) == buffer.Slice(start, |buffer.data|)
    ensures start >= end ==> buffer.Slice(start, end) == []
    ensures buffer.Slice(0, end) == buffer.data[..Min(end, |buffer.data|)]
  {
  }

  class CloudStorageBridge {
    const httpClient: Transport
    var requestCache: Cache

    ghost predicate Valid()
      reads this
    {
      Consistent(requestCache, httpClient)
    }

    /** `CloudStorageBridge::new`: keeps the transport, starts with an empty cache. */
    constructor (httpClientFn: Transport)
      ensures Valid()
      ensures httpClient == httpClientFn && requestCache == map[]
    {
      httpClient := httpClientFn;
      requestCache := map[];
    }

    /** `fetch_cloud_data` */
    method FetchCloudData(url: string) returns (r: Result<Bytes, string>)
      requires Valid()
      modifies this
      ensures Valid()
      ensures (r, requestCache) == Fetch(old(requestCache), url, httpClient)
    {
      FetchKeepsConsistent(requestCache, url, httpClient);
      if url in requestCache {
        return Ok(requestCache[url].data);
      }
      var reply := httpClient(Request(url, Get));
      match reply
      case Failure(reason) =>
        r := Err(reason);
      case Response(status, _, body) =>
        var provider := DetectProvider(url);
        requestCache := requestCache[url := CloudDataResponse(body, status.GetOr(DEFAULT_STATUS), provider)];
        r := Ok(body);
    }

    /** `fetch_cloud_metadata`: a HEAD request that reads neither the body nor the cache. */
    method FetchCloudMetadata(url: string) returns (r: Result<Metadata, string>)
      ensures httpClient(Request(url, Head)).Failure? ==> r == Err(httpClient(Request(url, Head)).reason)
      ensures httpClient(Request(url, Head)).Response? ==>
                r.Ok?
                && r.value.status == httpClient(Request(url, Head)).status
                && r.value.headers == httpClient(Request(url, Head)).headers
                && r.value.provider == DetectProvider(url)
    {
      var reply := httpClient(Request(url, Head));
      match reply
      case Failure(reason) =>
        r := Err(reason);
      case Response(status, headers, _) =>
        r := Ok(Metadata(status, headers, DetectProvider(url)));
    }

    /** `clear_cache` */
    method ClearCache()
      requires Valid()
      modifies this
      ensures Valid()
      ensures requestCache == map[] && GetCacheSize() == 0
    {
      requestCache := map[];
    }

    /** `get_cache_size`: the number of cached URLs; zero exactly when nothing is cached. */
    function GetCacheSize(): (n: nat)
      reads this
      ensures n == 0 <==> requestCache == map[]
    {
      |requestCache|
    }

    /** `get_cached_urls`: every cached URL once, in the map's iteration order. */
    method GetCachedUrls() returns (urls: seq<string>)
      ensures forall u :: u in urls <==> u in requestCache
      ensures Distinct(urls)
      ensures |urls| == GetCacheSize()
    {
      urls := [];
      var pending := requestCache.Keys;
      while pending != {}
        invariant pending <= requestCache.Keys
        invariant forall u :: u in urls <==> u in requestCache && u !in pending
        invariant Distinct(urls)
        invariant |urls| + |pending| == |requestCache|
        decreases pending
      {
        var url :| url in pending;
        urls := urls + [url];
        pending := pending - {url};
      }
    }

    /** `stream_cloud_data`: a GET that bypasses the cache, with the body cut into consecutive
        chunks of `chunkSize` bytes. `chunks(0)` panics, so `chunkSize` must be positive. */
    method StreamCloudData(url: string, chunkSize: nat) returns (r: Result<seq<Bytes>, string>)
      requires chunkSize > 0
      ensures httpClient(Request(url, Get)).Failure? ==> r == Err(httpClient(Request(url, Get)).reason)
      ensures httpClient(Request(url, Get)).Response? ==> r == Ok(Chunks(httpClient(Request(url, Get)).body, chunkSize))
    {
      var reply := httpClient(Request(url, Get));
      if reply.Failure? {
        return Err(reply.reason);
      }
      var data := reply.body;
      var chunks: seq<Bytes> := [];
      var i := 0;
      assert data[i..] == data;
      while i < |data|
        invariant i <= |data|
        invariant chunks + Chunks(data[i..], chunkSize) == Chunks(data, chunkSize)
        decreases |data| - i
      {
        var end := Min(i + chunkSize, |data|);
        ChunksFrom(data, chunkSize, i);
        chunks := chunks + [data[i..end]];
        i := end;
      }
      assert Chunks(data[i..], chunkSize) == [];
      assert chunks == chunks + Chunks(data[i..], chunkSize);
      r := Ok(chunks);
    }
  }

  /** Example cache session: one successful fetch caches one URL; clearing empties the cache;
      a second fetch of the same URL is a hit. */
  method CacheScenario() {
    var payload: Bytes := [1, 2, 3];
    var bridge := new CloudStorageBridge((request: Request) => Response(None, Headers([]), payload));
    var url := "https://x/obj";
    var data := bridge.FetchCloudData(url);
    assert data == Ok(payload);
    assert bridge.requestCache[url].status == DEFAULT_STATUS;
    assert bridge.GetCacheSize() == 1;
    var again := bridge.FetchCloudData(url);
    assert again == data && bridge.GetCacheSize() == 1;
    var urls := bridge.GetCachedUrls();
    assert urls == [url];
    bridge.ClearCache();
    assert bridge.GetCacheSize() == 0;
  }
}
