/**
 * The service worker (public/sw.js): the routing decision of its fetch
 * listener, and the cache storage its install and activate listeners
 * change.
 *
 * URL parsing is out of scope: a request carries its origin and path, and
 * its URL is their concatenation. The network is a parameter: `Some`
 * response when the fetch resolves, `None` when it rejects.
 */
module ServiceWorker {
  import opened Wrappers
  import opened Text
  import opened Seqs

  const CacheName: string := "nicolas-portfolio-v4"
  const FaviconPath: string := "/favicon.svg"

  /** `urlsToCache`. */
  const UrlsToCache: seq<string> := [FaviconPath]

  datatype Request = Request(verb: string, origin: string, path: string)

  /** `request.url`. */
  function Url(req: Request): string {
    req.origin + req.path
  }

  datatype Response = Response(status: nat, statusText: string, body: string)

  /** `response.ok`. */
  predicate Ok(r: Response) {
    200 <= r.status <= 299
  }

  /** The response that stands in for a failed network fetch. */
  const Unavailable: Response := Response(503, "Service Unavailable", "Network error")

  /** One named cache of the worker's origin. */
  datatype Cache = Cache(name: string, entries: map<string, Response>)

  function Names(caches: seq<Cache>): (names: seq<string>)
    ensures |names| == |caches|
    ensures forall i :: 0 <= i < |caches| ==> names[i] == caches[i].name
  {
    if caches == [] then [] else [caches[0].name] + Names(caches[1..])
  }

  /** `caches.match(url)`: the entry of the first cache that holds `url`. */
  function Match(caches: seq<Cache>, url: string): (r: Option<Response>)
    ensures r.None? <==> forall c :: c in caches ==> url !in c.entries
    ensures r.Some? ==> exists c :: c in caches && url in c.entries && c.entries[url] == r.value
  {
    if caches == [] then None
    else if url in caches[0].entries then Some(caches[0].entries[url])
    else Match(caches[1..], url)
  }

  /** `caches.open(name)`: the caches, with an empty one named `name` added if there was none. */
  function Open(caches: seq<Cache>, name: string): (r: seq<Cache>)
    ensures name in Names(r)
    ensures name in Names(caches) ==> r == caches
    ensures name !in Names(caches) ==> r == caches + [Cache(name, map[])]
  {
    if name in Names(caches) then caches
    else
      var r := caches + [Cache(name, map[])];
      assert Names(r)[|caches|] == name;
      r
  }

  /** `cache.put(url, response)` on the cache named `name`. */
  function Put(caches: seq<Cache>, name: string, url: string, response: Response): (r: seq<Cache>)
    ensures |r| == |caches|
    ensures forall i :: 0 <= i < |caches| ==>
      r[i].name == caches[i].name
      && r[i].entries == if caches[i].name == name then caches[i].entries[url := response] else caches[i].entries
  {
    if caches == [] then []
    else
      var head := if caches[0].name == name then caches[0].(entries := caches[0].entries[url := response]) else caches[0];
      [head] + Put(caches[1..], name, url, response)
  }

  /** `caches.delete(name)`. */
  function Delete(caches: seq<Cache>, name: string): (r: seq<Cache>)
    ensures forall c :: c in r <==> c in caches && c.name != name
  {
    Filter(caches, (c: Cache) => c.name != name)
  }

  /** What the fetch listener does with a request. */
  datatype Strategy =
    | Passthrough     // `respondWith` is not called: the browser fetches as usual
    | NetworkOnly     // HTML and directory URLs: always the network
    | CacheFirst      // everything else: the cache, then the network

  function StrategyFor(req: Request, workerOrigin: string): (s: Strategy)
    ensures s == Passthrough <==> req.verb != "GET" || req.origin != workerOrigin
    ensures s == NetworkOnly <==>
      req.verb == "GET" && req.origin == workerOrigin
      && (EndsWith(Url(req), ".html") || EndsWith(Url(req), "/"))
  {
    if req.verb != "GET" then Passthrough
    else if req.origin != workerOrigin then Passthrough
    else if EndsWith(Url(req), ".html") || EndsWith(Url(req), "/") then NetworkOnly
    else CacheFirst
  }

  /** The outcome of one fetch event. */
  datatype Reply = NotIntercepted | Served(response: Response, fromCache: bool)

  /** `fetch(request).catch(...)`: the network's response, or 503 when it fails. */
  function FromNetwork(network: Option<Response>): (r: Response)
    ensures network.Some? ==> r == network.value
    ensures network.None? ==> r.status == 503 && r.statusText == "Service Unavailable" && r.body == "Network error"
  {
    match network
    case Some(r) => r
    case None => Unavailable
  }

  /** The fetch listener, given the caches and what the network would answer. */
  function Respond(caches: seq<Cache>, workerOrigin: string, req: Request, network: Option<Response>): Reply {
    match StrategyFor(req, workerOrigin)
    case Passthrough => NotIntercepted
    case NetworkOnly => Served(FromNetwork(network), false)
    case CacheFirst =>
      match Match(caches, Url(req))
      case Some(hit) => Served(hit, true)
      case None => Served(FromNetwork(network), false)
  }

  /** Only same-origin GET requests are intercepted. */
  lemma InterceptedIff(caches: seq<Cache>, workerOrigin: string, req: Request, network: Option<Response>)
    ensures Respond(caches, workerOrigin, req, network) == NotIntercepted
        <==> req.verb != "GET" || req.origin != workerOrigin
  {
  }

  /** HTML and directory URLs never consult the cache: the reply is the same whatever it holds. */
  lemma HtmlNeverCached(c1: seq<Cache>, c2: seq<Cache>, workerOrigin: string, req: Request, network: Option<Response>)
    requires req.verb == "GET" && req.origin == workerOrigin
    requires EndsWith(Url(req), ".html") || EndsWith(Url(req), "/")
    ensures Respond(c1, workerOrigin, req, network) == Respond(c2, workerOrigin, req, network)
    ensures Respond(c1, workerOrigin, req, network) == Served(FromNetwork(network), false)
  {
  }

  /** A cache hit is answered from the cache, whatever the network would have said. */
  lemma CacheHitSkipsNetwork(caches: seq<Cache>, workerOrigin: string, req: Request, n1: Option<Response>, n2: Option<Response>)
    requires StrategyFor(req, workerOrigin) == CacheFirst
    requires Match(caches, Url(req)).Some?
    ensures Respond(caches, workerOrigin, req, n1) == Respond(caches, workerOrigin, req, n2)
    ensures Respond(caches, workerOrigin, req, n1) == Served(Match(caches, Url(req)).value, true)
  {
  }

  /** When the network fails and the cache cannot help, the reply is the 503 stand-in. */
  lemma NetworkFailure(caches: seq<Cache>, workerOrigin: string, req: Request)
    requires StrategyFor(req, workerOrigin) != Passthrough
    requires StrategyFor(req, workerOrigin) == CacheFirst ==> Match(caches, Url(req)).None?
    ensures Respond(caches, workerOrigin, req, None) == Served(Unavailable, false)
  {
  }

  /** The worker's cache storage. */
  class Worker {
    /** `location.origin`. */
    const origin: string
    var caches: seq<Cache>

    /** A worker whose origin has no caches yet. */
    constructor (workerOrigin: string)
      ensures origin == workerOrigin && caches == []
    {
      origin := workerOrigin;
      caches := [];
    }

    /** The absolute URL of the one entry of `urlsToCache` on this origin. */
    function FaviconUrl(): string
      reads this
    {
      origin + UrlsToCache[0]
    }

    /**
     * The install listener: open the cache and add the favicon. `addAll`
     * stores nothing unless the fetch succeeds with an OK response; any
     * failure, of storage or of the fetch, is swallowed.
     */
    method Install(storageAvailable: bool, favicon: Option<Response>)
      modifies this
      ensures !storageAvailable ==> caches == old(caches)
      ensures storageAvailable ==>
        var ready := Open(old(caches), CacheName);
        caches == if favicon.Some? && Ok(favicon.value)
                  then Put(ready, CacheName, FaviconUrl(), favicon.value)
                  else ready
    {
      if storageAvailable {
        caches := Open(caches, CacheName);
        if favicon.Some? && Ok(favicon.value) {
          caches := Put(caches, CacheName, FaviconUrl(), favicon.value);
        }
      }
    }

    /** The activate listener: delete every cache, the current one included. */
    method Activate()
      modifies this
      ensures caches == []
    {
      var names := Names(caches);
      var i := 0;
      while i < |names|
        invariant 0 <= i <= |names|
        invariant forall c :: c in caches ==> c.name in names[i..]
        invariant caches == [] || caches[0].name in names[i..]
      {
        DeleteStep(caches, names, i);
        caches := Delete(caches, names[i]);
        i := i + 1;
      }
    }
  }

  /** Deleting the next name leaves only caches named later in the list. */
  lemma DeleteStep(caches: seq<Cache>, names: seq<string>, i: nat)
    requires i < |names|
    requires forall c :: c in caches ==> c.name in names[i..]
    ensures var r := Delete(caches, names[i]);
      && (forall c :: c in r ==> c.name in names[i + 1..])
      && (r == [] || r[0].name in names[i + 1..])
  {
    var r := Delete(caches, names[i]);
    assert names[i..] == [names[i]] + names[i + 1..];
    if r != [] {
      assert r[0] in r;
    }
  }

  /** Installing adds no URL but the favicon's, to no cache but the current one. */
  lemma InstallOnlyFavicon(caches: seq<Cache>, url: string, response: Response)
    ensures var r := Put(Open(caches, CacheName), CacheName, url, response);
      forall i, u :: 0 <= i < |r| && u in r[i].entries ==>
        (i < |caches| && u in caches[i].entries) || (r[i].name == CacheName && u == url)
  {
  }

  /** A suffix of the path is a suffix of the whole URL. */
  lemma SuffixOfPath(origin: string, path: string, suffix: string)
    requires |suffix| <= |path|
    ensures EndsWith(origin + path, suffix) == EndsWith(path, suffix)
  {
    var url := origin + path;
    assert url[|url| - |suffix|..] == path[|path| - |suffix|..];
  }

  /** The favicon is neither an HTML file nor a directory: it is looked up cache first. */
  lemma FaviconCacheFirst(workerOrigin: string)
    ensures StrategyFor(Request("GET", workerOrigin, FaviconPath), workerOrigin) == CacheFirst
  {
    SuffixOfPath(workerOrigin, FaviconPath, ".html");
    SuffixOfPath(workerOrigin, FaviconPath, "/");
  }

  /** After storing `url` in the opened current cache, some cache holds `url`. */
  lemma StoredIsFound(caches: seq<Cache>, url: string, response: Response)
    ensures Match(Put(Open(caches, CacheName), CacheName, url, response), url).Some?
  {
    var ready := Open(caches, CacheName);
    var r := Put(ready, CacheName, url, response);
    var k :| 0 <= k < |ready| && Names(ready)[k] == CacheName;
    assert url in r[k].entries;
    assert r[k] in r;
  }

  /**
   * After an install that stored the favicon, a same-origin GET for it is
   * served from a cache, whatever the network does.
   */
  lemma InstalledFaviconHits(caches: seq<Cache>, workerOrigin: string, response: Response, network: Option<Response>)
    ensures var r := Put(Open(caches, CacheName), CacheName, workerOrigin + FaviconPath, response);
      var reply := Respond(r, workerOrigin, Request("GET", workerOrigin, FaviconPath), network);
      reply.Served? && reply.fromCache
  {
    FaviconCacheFirst(workerOrigin);
    StoredIsFound(caches, workerOrigin + FaviconPath, response);
  }
}
