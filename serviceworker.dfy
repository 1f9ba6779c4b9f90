/**
 * The service worker of `web/public/sw.js`: same-origin GET requests are answered cache-first
 * from the `cn-static-v1` cache, and a miss stores the network response when it is a 200 with
 * a textual content type. Cache Storage is a map from cache names to caches, a cache a map
 * from URLs to responses, and the network a function from requests to a response, or to None
 * when `fetch` rejects (the device is offline, the host cannot be reached).
 */
module ServiceWorker {

  import opened Wrappers
  import Text

  const CacheName := "cn-static-v1"

  /** Declared by the worker but never put into any cache. */
  const Assets: seq<string> := ["/", "/index.html"]

  datatype Url = Url(origin: string, path: string)

  datatype Request = Request(verb: string, url: Url)

  datatype Response = Response(status: int, contentType: Option<string>, body: string)

  type Cache = map<Url, Response>

  type CacheStorage = map<string, Cache>

  /**
   * What the handler does with a request: leave it to the browser, answer it, or, when the
   * network fetch rejects, let the promise given to `respondWith` reject, which the page sees
   * as a network error.
   */
  datatype Outcome = PassThrough | Respond(response: Response, fromNetwork: bool) | NetworkError

  datatype Step = Step(outcome: Outcome, storage: CacheStorage)

  /** The handler answers only GET requests to its own origin. */
  predicate Intercepts(req: Request, selfOrigin: string) {
    req.verb == "GET" && req.url.origin == selfOrigin
  }

  /** `status === 200 && content-type includes "text"` (a case-sensitive substring test). */
  predicate Storable(res: Response) {
    res.status == 200 && res.contentType.Some? && Text.Contains(res.contentType.value, "text")
  }

  /** `caches.open(CACHE)`: the named cache, created empty when it does not exist yet. */
  function Open(storage: CacheStorage): (s: CacheStorage)
    ensures CacheName in s
    ensures CacheName in storage ==> s == storage
    ensures CacheName !in storage ==> s == storage[CacheName := map[]]
  {
    if CacheName in storage then storage else storage[CacheName := map[]]
  }

  /** After a miss: `cache.put` of the response when it is storable, nothing otherwise. */
  function AfterMiss(cache: Cache, key: Url, res: Response): (c: Cache)
    ensures key !in cache ==> (key in c <==> Storable(res))
    ensures key in c && key !in cache ==> c[key] == res
    ensures forall k :: k in cache ==> k in c
  {
    if Storable(res) then cache[key := res] else cache
  }

  /** One fetch event, with `network` answering the request on a miss. */
  function FetchStep(storage: CacheStorage, req: Request, selfOrigin: string, network: Request -> Option<Response>): (s: Step)
    ensures !Intercepts(req, selfOrigin) ==> s == Step(PassThrough, storage)
    ensures Intercepts(req, selfOrigin) ==> !s.outcome.PassThrough? && CacheName in s.storage
    ensures s.outcome.NetworkError? ==> network(req).None?
  {
    if !Intercepts(req, selfOrigin) then Step(PassThrough, storage)
    else
      var current := Open(storage);
      var cache := current[CacheName];
      if req.url in cache then Step(Respond(cache[req.url], false), current)
      else
        match network(req)
        case None => Step(NetworkError, current)
        case Some(res) => Step(Respond(res, true), current[CacheName := AfterMiss(cache, req.url, res)])
  }

  /** A hit answers from the cache, asks the network nothing and changes nothing. */
  lemma CacheHit(storage: CacheStorage, req: Request, selfOrigin: string, network: Request -> Option<Response>)
    requires Intercepts(req, selfOrigin) && CacheName in storage && req.url in storage[CacheName]
    ensures FetchStep(storage, req, selfOrigin, network) == Step(Respond(storage[CacheName][req.url], false), storage)
  {
  }

  /**
   * A miss answers with the network's response, which is kept iff it is storable; when the
   * fetch rejects, the page gets a network error and nothing is stored.
   */
  lemma CacheMiss(storage: CacheStorage, req: Request, selfOrigin: string, network: Request -> Option<Response>)
    requires Intercepts(req, selfOrigin) && (CacheName !in storage || req.url !in storage[CacheName])
    ensures var s := FetchStep(storage, req, selfOrigin, network);
      network(req).None? ==> s == Step(NetworkError, Open(storage)) && req.url !in s.storage[CacheName]
    ensures var s := FetchStep(storage, req, selfOrigin, network);
      network(req).Some? ==>
        s.outcome == Respond(network(req).value, true)
        && (req.url in s.storage[CacheName] <==> Storable(network(req).value))
        && (req.url in s.storage[CacheName] ==> s.storage[CacheName][req.url] == network(req).value)
  {
  }

  /** The handler only adds: no cache and no entry is ever removed or overwritten. */
  lemma {:induction false} NeverEvicts(storage: CacheStorage, req: Request, selfOrigin: string, network: Request -> Option<Response>)
    ensures var s := FetchStep(storage, req, selfOrigin, network).storage;
      forall n, k :: n in storage && k in storage[n] ==> n in s && k in s[n] && s[n][k] == storage[n][k]
  {
    var s := FetchStep(storage, req, selfOrigin, network).storage;
    forall n, k | n in storage && k in storage[n]
      ensures n in s && k in s[n] && s[n][k] == storage[n][k]
    {
      if Intercepts(req, selfOrigin) && n == CacheName && req.url !in storage[CacheName] {
        assert k != req.url;
      }
    }
  }

  /** Only the worker's own cache ever changes, and only by gaining the requested URL. */
  lemma OtherCachesUntouched(storage: CacheStorage, req: Request, selfOrigin: string, network: Request -> Option<Response>)
    ensures var s := FetchStep(storage, req, selfOrigin, network).storage;
      forall n :: n in s && n != CacheName ==> n in storage && s[n] == storage[n]
    ensures var s := FetchStep(storage, req, selfOrigin, network).storage;
      CacheName in s ==> forall k :: k in s[CacheName] && k != req.url ==> CacheName in storage && k in storage[CacheName]
  {
  }

  /** After a storable miss, the same request is a hit answered with the stored response. */
  lemma {:induction false} SecondRequestHits(storage: CacheStorage, req: Request, selfOrigin: string, network: Request -> Option<Response>, later: Request -> Option<Response>)
    requires Intercepts(req, selfOrigin) && (CacheName !in storage || req.url !in storage[CacheName])
    requires network(req).Some? && Storable(network(req).value)
    ensures var s := FetchStep(storage, req, selfOrigin, network).storage;
      FetchStep(s, req, selfOrigin, later) == Step(Respond(network(req).value, false), s)
  {
    CacheMiss(storage, req, selfOrigin, network);
    var s := FetchStep(storage, req, selfOrigin, network).storage;
    CacheHit(s, req, selfOrigin, later);
  }

  /** The worker's state: Cache Storage and the two lifecycle calls it makes. */
  class Worker {
    var storage: CacheStorage
    var skippedWaiting: bool
    var claimedClients: bool

    constructor (initial: CacheStorage)
      ensures storage == initial && !skippedWaiting && !claimedClients
    {
      storage, skippedWaiting, claimedClients := initial, false, false;
    }

    /** `install`: `skipWaiting()`; nothing is precached. */
    method OnInstall()
      modifies this
      ensures storage == old(storage) && skippedWaiting && claimedClients == old(claimedClients)
    {
      skippedWaiting := true;
    }

    /** `activate`: `clients.claim()`; no cache is cleared. */
    method OnActivate()
      modifies this
      ensures storage == old(storage) && claimedClients && skippedWaiting == old(skippedWaiting)
    {
      claimedClients := true;
    }

    /** `fetch`: answer a request, or fail with a network error, and update Cache Storage as `FetchStep` says. */
    method OnFetch(req: Request, selfOrigin: string, network: Request -> Option<Response>) returns (outcome: Outcome)
      modifies this
      ensures outcome == FetchStep(old(storage), req, selfOrigin, network).outcome
      ensures storage == FetchStep(old(storage), req, selfOrigin, network).storage
      ensures skippedWaiting == old(skippedWaiting) && claimedClients == old(claimedClients)
    {
      if req.verb != "GET" || req.url.origin != selfOrigin {
        return PassThrough;
      }
      if CacheName !in storage {
        storage := storage[CacheName := map[]];
      }
      var cache := storage[CacheName];
      if req.url in cache {
        return Respond(cache[req.url], false);
      }
      var answer := network(req);
      if answer.None? {
        return NetworkError;
      }
      var res := answer.value;
      if Storable(res) {
        storage := storage[CacheName := cache[req.url := res]];
      }
      outcome := Respond(res, true);
    }
  }
}
