/**
 * The service worker's request policy: how a fetch is routed (network only,
 * network first, cache first), which responses are admitted to the cache, the
 * offline fallback, and the removal of stale caches on activation.
 */
module ServiceWorker {
  import opened Common
  import Text

  const CACHE_NAME: string := "lingua-chat-ai-v1"
  /** The offline page, as the root-relative path the handler passes to `caches.match`. */
  const OFFLINE_PATH: string := "/offline.html"
  const API_MARKER: string := "/api/"
  const TTS_MARKER: string := "/api/tts"

  datatype Request = Request(url: string, httpMethod: string, destination: string)

  /** A response; `kind` is `response.type` ("basic", "cors", "opaque", ...). */
  datatype Response = Response(status: int, kind: string)

  datatype Strategy = NetworkOnly | NetworkFirst | CacheFirst

  /** What `fetch(request)` does: reject, or resolve with a response. */
  datatype NetworkOutcome = NetworkError | Received(response: Response)

  /** What the page gets from `respondWith`: a response, or a network error
      (a rejected promise, or one that resolved to `undefined`). */
  datatype Answer = Served(response: Response) | NoResponse

  /** A request to the application's API: substring containment on the whole URL. */
  predicate IsApi(url: string)
  {
    Text.Includes(url, API_MARKER, false)
  }

  /** A speech-synthesis POST: never cached (the client keeps its own audio cache). */
  predicate IsTtsPost(request: Request)
  {
    Text.Includes(request.url, TTS_MARKER, false) && request.httpMethod == "POST"
  }

  /** Every URL that contains "/api/tts" contains "/api/". */
  lemma TtsUrlIsApi(url: string)
    ensures Text.Contains(url, TTS_MARKER, false) ==> Text.Contains(url, API_MARKER, false)
  {
    if Text.Contains(url, TTS_MARKER, false) {
      var i: nat :| Text.MatchesAt(url, TTS_MARKER, i, false);
      assert Text.MatchesAt(TTS_MARKER, API_MARKER, 0, false);
      Text.InfixOccurrence(url, TTS_MARKER, API_MARKER, i, 0, false);
    }
  }

  /** The branch the fetch handler takes. */
  function StrategyFor(request: Request): (s: Strategy)
    ensures s == NetworkOnly <==>
      Text.Contains(request.url, TTS_MARKER, false) && request.httpMethod == "POST"
    ensures s == NetworkFirst <==>
      Text.Contains(request.url, API_MARKER, false)
      && !(Text.Contains(request.url, TTS_MARKER, false) && request.httpMethod == "POST")
    ensures s == CacheFirst <==> !Text.Contains(request.url, API_MARKER, false)
  {
    TtsUrlIsApi(request.url);
    if IsApi(request.url) then
      if IsTtsPost(request) then NetworkOnly else NetworkFirst
    else CacheFirst
  }

  /** Classification is by substring, not by method alone: a GET to the synthesis endpoint is network-first. */
  lemma TtsGetIsNetworkFirst(url: string)
    requires Text.Contains(url, TTS_MARKER, false)
    ensures StrategyFor(Request(url, "GET", "")) == NetworkFirst
  {
    TtsUrlIsApi(url);
  }

  /** An API response is stored only when it is a 200 answer to a GET. */
  predicate ApiAdmits(response: Response, httpMethod: string)
  {
    response.status == 200 && httpMethod == "GET"
  }

  /** A static response is stored only when it is a 200 same-origin ("basic") answer. */
  predicate StaticAdmits(response: Response)
  {
    response.status == 200 && response.kind == "basic"
  }

  /** The offline page stands in only for page navigations. */
  predicate ServesOfflinePage(request: Request)
  {
    request.destination == "document"
  }

  /**
   * The absolute URL a root-relative path names for a worker served from `origin`
   * (scheme, host and port, with no trailing slash). The Cache API resolves a string
   * argument this way before matching, so it is the key a request for that path is
   * stored under.
   */
  function Resolve(origin: string, path: string): (url: string)
    requires |path| > 0 && path[0] == '/'
    ensures |url| == |origin| + |path| && url[..|origin|] == origin && url[|origin|..] == path
  {
    origin + path
  }

  /** The current cache's entries, or none when it does not exist yet. */
  function Current(caches: map<string, map<string, Response>>): map<string, Response>
  {
    if CACHE_NAME in caches then caches[CACHE_NAME] else map[]
  }

  /** The Cache Storage of the origin: cache name -> absolute request URL -> stored response. */
  class CacheStorage {
    /** The origin the worker is served from, against which relative URLs resolve. */
    const origin: string
    var caches: map<string, map<string, Response>>

    constructor (workerOrigin: string, initial: map<string, map<string, Response>>)
      ensures origin == workerOrigin && caches == initial
    {
      origin := workerOrigin;
      caches := initial;
    }

    /** The key the offline page is stored under and looked up by. */
    function OfflineUrl(): string
      reads this
    {
      Resolve(origin, OFFLINE_PATH)
    }

    /** Some cache holds `response` for `url`. */
    ghost predicate Holds(url: string, response: Response)
      reads this
    {
      exists name :: name in caches && url in caches[name] && caches[name][url] == response
    }

    /** Some cache has an entry for `url`. */
    ghost predicate Has(url: string)
      reads this
    {
      exists name :: name in caches && url in caches[name]
    }

    /**
     * `caches.match`: a stored response for the URL from any of the caches. The
     * Cache API matches only GET requests; which cache answers when several hold
     * the URL is left open.
     */
    method Match(url: string, httpMethod: string) returns (r: Option<Response>)
      ensures r.Some? ==> httpMethod == "GET" && Holds(url, r.value)
      ensures r.None? ==> httpMethod != "GET" || !Has(url)
    {
      if httpMethod == "GET" && exists name :: name in caches && url in caches[name] {
        var name :| name in caches && url in caches[name];
        r := Some(caches[name][url]);
      } else {
        r := None;
      }
    }

    /**
     * `caches.open(CACHE_NAME)` then `cache.put(request, response)`: opening creates
     * the cache if needed; the Cache API refuses to store the answer to a non-GET
     * request, and that refusal is never observed by the handler.
     */
    method Put(request: Request, response: Response)
      modifies this
      ensures CACHE_NAME in caches
      ensures forall name :: name != CACHE_NAME ==>
        (name in caches <==> name in old(caches)) && (name in caches ==> caches[name] == old(caches)[name])
      ensures caches[CACHE_NAME] ==
        if request.httpMethod == "GET" then Current(old(caches))[request.url := response] else Current(old(caches))
    {
      var current := Current(caches);
      caches := caches[CACHE_NAME := if request.httpMethod == "GET" then current[request.url := response] else current];
    }

    /** The fetch handler; `network` is what `fetch(request)` would do. */
    method HandleFetch(request: Request, network: NetworkOutcome) returns (answer: Answer, fetched: bool)
      modifies this
      ensures StrategyFor(request) == NetworkOnly ==>
        && fetched && caches == old(caches)
        && answer == (if network.Received? then Served(network.response) else NoResponse)
      ensures StrategyFor(request) == NetworkFirst && network.Received? ==>
        && fetched && answer == Served(network.response)
        && (ApiAdmits(network.response, request.httpMethod) ==>
              caches == old(caches)[CACHE_NAME := Current(old(caches))[request.url := network.response]])
        && (!ApiAdmits(network.response, request.httpMethod) ==> caches == old(caches))
      ensures StrategyFor(request) == NetworkFirst && network.NetworkError? ==>
        && fetched && caches == old(caches)
        && (answer.Served? ==> request.httpMethod == "GET" && Holds(request.url, answer.response))
        && (answer.NoResponse? ==> request.httpMethod != "GET" || !Has(request.url))
      ensures StrategyFor(request) == CacheFirst && request.httpMethod == "GET" && old(Has(request.url)) ==>
        && !fetched && caches == old(caches)
        && answer.Served? && Holds(request.url, answer.response)
      ensures StrategyFor(request) == CacheFirst && !(request.httpMethod == "GET" && old(Has(request.url))) ==>
        && fetched
        && (network.Received? ==> answer == Served(network.response))
        && (network.Received? && StaticAdmits(network.response) && request.httpMethod == "GET" ==>
              caches == old(caches)[CACHE_NAME := Current(old(caches))[request.url := network.response]])
        && (network.Received? && StaticAdmits(network.response) && request.httpMethod != "GET" ==>
              caches == old(caches)[CACHE_NAME := Current(old(caches))])
        && (network.Received? && !StaticAdmits(network.response) ==> caches == old(caches))
        && (network.NetworkError? ==> caches == old(caches))
        && (network.NetworkError? && !ServesOfflinePage(request) ==> answer == NoResponse)
        && (network.NetworkError? && ServesOfflinePage(request) ==>
              (answer.Served? ==> Holds(OfflineUrl(), answer.response))
              && (answer.NoResponse? ==> !Has(OfflineUrl())))
    {
      match StrategyFor(request)
      case NetworkOnly =>
        fetched := true;
        answer := if network.Received? then Served(network.response) else NoResponse;
      case NetworkFirst =>
        fetched := true;
        if network.Received? {
          if ApiAdmits(network.response, request.httpMethod) {
            Put(request, network.response);
          }
          answer := Served(network.response);
        } else {
          var cached := Match(request.url, request.httpMethod);
          answer := if cached.Some? then Served(cached.value) else NoResponse;
        }
      case CacheFirst =>
        var cached := Match(request.url, request.httpMethod);
        if cached.Some? {
          fetched := false;
          answer := Served(cached.value);
        } else {
          fetched := true;
          if network.Received? {
            if StaticAdmits(network.response) {
              Put(request, network.response);
            }
            answer := Served(network.response);
          } else if ServesOfflinePage(request) {
            var offline := Match(OfflineUrl(), "GET");
            answer := if offline.Some? then Served(offline.value) else NoResponse;
          } else {
            answer := NoResponse;
          }
        }
    }

    /** The activate handler: delete every cache whose name is not the current one. */
    method Activate()
      modifies this
      ensures caches == if CACHE_NAME in old(caches) then map[CACHE_NAME := old(caches)[CACHE_NAME]] else map[]
    {
      var names := caches.Keys;
      while names != {}
        invariant forall n :: n in caches <==> n in old(caches) && (n in names || n == CACHE_NAME)
        invariant forall n :: n in caches ==> caches[n] == old(caches)[n]
        decreases names
      {
        var n :| n in names;
        if n != CACHE_NAME {
          caches := caches - {n};
        }
        names := names - {n};
      }
    }
  }

  /**
   * A page navigation that fails while offline is answered with the page stored
   * under the absolute URL of "/offline.html", which is where install and a
   * cache-first fetch of the page store it.
   */
  method OfflinePageIsFound(origin: string, url: string, page: Response) returns (answer: Answer)
    requires !Text.Contains(url, API_MARKER, false)
    requires url != Resolve(origin, OFFLINE_PATH)
    ensures answer == Served(page)
  {
    var storage := new CacheStorage(origin, map[CACHE_NAME := map[Resolve(origin, OFFLINE_PATH) := page]]);
    assert CACHE_NAME in storage.caches && storage.OfflineUrl() in storage.caches[CACHE_NAME];
    var fetched;
    answer, fetched := storage.HandleFetch(Request(url, "GET", "document"), NetworkError);
  }
}
