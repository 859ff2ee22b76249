/**
 * The offline cache of `sw.js`: a store from requests to responses, filled
 * all at once from the fixed asset list on install, and consulted on every
 * fetch, network first for the price document and cache first otherwise.
 */
module ServiceWorker {
  import opened Wrappers

  /** The price document's path: the one request served network first. */
  const PricesPath := "/prices.json"

  /** The application shell populated on install. */
  const Assets: seq<string> := ["/", "/index.html", "/manifest.json", "/icons/icon-192.png", "/icons/icon-512.png", "/prices.json"]

  /**
   * A GET request, given by the parts of its URL the worker and the cache
   * distinguish: the origin, the path and the query.
   */
  datatype Request = Request(origin: string, pathname: string, search: string)

  datatype Response = Response(status: int, body: string)

  /** `res.ok`: a status in the range 200-299. */
  predicate IsOk(r: Response) {
    200 <= r.status <= 299
  }

  /** The request `cache.addAll` issues for an entry of the asset list, resolved against the worker's origin. */
  function AssetRequest(origin: string, path: string): Request {
    Request(origin, path, "")
  }

  predicate IsAssetRequest(origin: string, req: Request) {
    req.origin == origin && req.search == "" && req.pathname in Assets
  }

  /** The requests `cache.addAll(ASSETS)` stores. */
  function AssetRequests(origin: string): set<Request> {
    set p | p in Assets :: AssetRequest(origin, p)
  }

  /** `url.pathname === '/prices.json'` (line 26), whatever the origin and the query. */
  predicate IsPriceDocument(req: Request) {
    req.pathname == PricesPath
  }

  /** `caches.match(req)`: the stored response, if any. */
  function Match(store: map<Request, Response>, req: Request): (r: Option<Response>)
    ensures r.Some? <==> req in store
    ensures r.Some? ==> r.value == store[req]
  {
    if req in store then Some(store[req]) else None
  }

  /**
   * A response `cache.addAll` accepts: ok, and not a partial (206) response.
   * Its other rejection, a `Vary: *` header, is outside this model.
   */
  predicate Storable(r: Response) {
    IsOk(r) && r.status != 206
  }

  /** `addAll` succeeds when every asset's fetch resolves with a response it accepts. */
  predicate AllAssetsFetched(origin: string, net: Request -> Option<Response>) {
    forall i :: 0 <= i < |Assets| ==>
      net(AssetRequest(origin, Assets[i])).Some? && Storable(net(AssetRequest(origin, Assets[i])).value)
  }

  /** The entries `addAll` stores, one per asset. */
  function AssetEntries(origin: string, net: Request -> Option<Response>): (m: map<Request, Response>)
    requires AllAssetsFetched(origin, net)
    ensures forall req :: req in m <==> IsAssetRequest(origin, req)
    ensures m.Keys == AssetRequests(origin)
  {
    map p | p in Assets :: AssetRequest(origin, p) := net(AssetRequest(origin, p)).value
  }

  /**
   * The store after the install step (lines 11-16): every asset added, with
   * every other entry kept, or nothing changed at all.
   */
  function Installed(store: map<Request, Response>, origin: string, net: Request -> Option<Response>): (r: map<Request, Response>)
    ensures AllAssetsFetched(origin, net) ==> r.Keys == store.Keys + AssetRequests(origin)
    ensures AllAssetsFetched(origin, net) ==>
      forall p :: p in Assets ==> r[AssetRequest(origin, p)] == net(AssetRequest(origin, p)).value
    ensures forall k :: k in store && !IsAssetRequest(origin, k) ==> k in r && r[k] == store[k]
    ensures !AllAssetsFetched(origin, net) ==> r == store
  {
    if AllAssetsFetched(origin, net) then store + AssetEntries(origin, net) else store
  }

  /** The fetch handler (lines 22-43): the response given back and the store afterwards. */
  function Handle(store: map<Request, Response>, req: Request, net: Option<Response>): (r: (Option<Response>, map<Request, Response>))
    ensures r.1.Keys == store.Keys + (if IsPriceDocument(req) && net.Some? then {req} else {})
    ensures forall k :: k in store && k != req ==> k in r.1 && r.1[k] == store[k]
  {
    if IsPriceDocument(req) then
      match net
      case Some(resp) => (Some(resp), store[req := resp])
      case None => (Match(store, req), store)
    else
      var cached := Match(store, req);
      if cached.Some? then (cached, store) else (net, store)
  }

  /** Only the install step and the price document put entries in the store. */
  ghost predicate StoreKeysValid(origin: string, store: map<Request, Response>) {
    forall req :: req in store ==> IsAssetRequest(origin, req) || IsPriceDocument(req)
  }

  /** The worker's cache storage, reduced to its single named store; `origin` is the worker's own. */
  class Worker {
    const origin: string
    var store: map<Request, Response>

    ghost predicate Valid()
      reads this
    {
      StoreKeysValid(origin, store)
    }

    /**
     * A worker version starting on the store `CACHE_NAME` already holds: empty
     * on first registration, or what an earlier version of this worker left.
     */
    constructor (origin: string, s0: map<Request, Response>)
      requires StoreKeysValid(origin, s0)
      ensures Valid() && this.origin == origin && store == s0
    {
      this.origin := origin;
      store := s0;
    }

    /**
     * `caches.open(CACHE_NAME).then(c => c.addAll(ASSETS))`: `net` gives what
     * fetching each request yields (`None` when it rejects).
     */
    method Install(net: Request -> Option<Response>) returns (ok: bool)
      requires Valid()
      modifies this
      ensures Valid()
      ensures ok == AllAssetsFetched(origin, net)
      ensures store == Installed(old(store), origin, net)
    {
      ok := AllAssetsFetched(origin, net);
      if ok {
        store := store + AssetEntries(origin, net);
      }
    }

    /** The fetch handler for `req`; `net` is what `fetch(req)` yields (`None` when it rejects). */
    method Fetch(req: Request, net: Option<Response>) returns (r: Option<Response>)
      requires Valid()
      modifies this
      ensures Valid()
      ensures (r, store) == Handle(old(store), req, net)
    {
      if IsPriceDocument(req) {
        if net.Some? {
          store := store[req := net.value];
          r := net;
        } else {
          r := Match(store, req);
        }
        return;
      }
      var cached := Match(store, req);
      r := if cached.Some? then cached else net;
    }
  }

  // ---------------------------------------------------------------------------
  // What the worker promises

  /** The store after a successful install maps each asset's request to its fetched response. */
  lemma InstallStoresEveryAsset(store: map<Request, Response>, origin: string, net: Request -> Option<Response>, p: string)
    requires AllAssetsFetched(origin, net) && p in Assets
    ensures AssetRequest(origin, p) in Installed(store, origin, net)
    ensures Installed(store, origin, net)[AssetRequest(origin, p)] == net(AssetRequest(origin, p)).value
  {
    assert AssetRequest(origin, p) in AssetRequests(origin);
  }

  /** A failed install leaves the store as it was: partial population is never observable. */
  lemma FailedInstallChangesNothing(store: map<Request, Response>, origin: string, net: Request -> Option<Response>, i: nat)
    requires i < |Assets|
    requires net(AssetRequest(origin, Assets[i])).None? || !Storable(net(AssetRequest(origin, Assets[i])).value)
    ensures Installed(store, origin, net) == store
  {
  }

  /** One asset answered with a partial (206) response, ok though it is, fails the whole install. */
  lemma PartialAssetFailsInstall(store: map<Request, Response>, origin: string, net: Request -> Option<Response>, i: nat, body: string)
    requires i < |Assets| && net(AssetRequest(origin, Assets[i])) == Some(Response(206, body))
    ensures IsOk(Response(206, body))
    ensures !AllAssetsFetched(origin, net) && Installed(store, origin, net) == store
  {
    assert !Storable(net(AssetRequest(origin, Assets[i])).value);
  }

  /** Exactly the six listed paths of the worker's origin, with an empty query, are the asset requests. */
  lemma AssetRequestsAreTheSixPaths(origin: string, req: Request)
    ensures IsAssetRequest(origin, req) <==>
      req in {AssetRequest(origin, "/"), AssetRequest(origin, "/index.html"), AssetRequest(origin, "/manifest.json"),
              AssetRequest(origin, "/icons/icon-192.png"), AssetRequest(origin, "/icons/icon-512.png"),
              AssetRequest(origin, "/prices.json")}
  {
  }

  /** Network first: a response of any status is returned and becomes the stored entry for the request. */
  lemma PriceDocumentNetworkFirst(store: map<Request, Response>, req: Request, resp: Response)
    requires IsPriceDocument(req)
    ensures Handle(store, req, Some(resp)) == (Some(resp), store[req := resp])
  {
  }

  /** The price-document test reads only the path: another origin's `/prices.json`, or one with a query, is also network first. */
  lemma PriceDocumentAnyOriginOrQuery(origin: string, search: string)
    ensures IsPriceDocument(Request(origin, PricesPath, search))
    ensures search != "" ==> !IsAssetRequest(origin, Request(origin, PricesPath, search))
  {
  }

  /** Offline, the price document is whatever is stored for the request, and the store is untouched. */
  lemma PriceDocumentOffline(store: map<Request, Response>, req: Request)
    requires IsPriceDocument(req)
    ensures Handle(store, req, None) == (Match(store, req), store)
  {
  }

  /** After one successful fetch of the price document, an offline request for it gets that response. */
  lemma OfflineServesLastFetchedPrices(store: map<Request, Response>, req: Request, resp: Response, later: map<Request, Response>)
    requires IsPriceDocument(req)
    requires later == Handle(store, req, Some(resp)).1
    ensures Handle(later, req, None) == (Some(resp), later)
  {
  }

  /** Cache first: a stored entry is returned whatever the network would have given. */
  lemma StoredEntryIgnoresNetwork(store: map<Request, Response>, req: Request, net1: Option<Response>, net2: Option<Response>)
    requires !IsPriceDocument(req) && req in store
    ensures Handle(store, req, net1) == Handle(store, req, net2) == (Some(store[req]), store)
  {
  }

  /** Cache first: a miss returns the network's result (a rejection included) and stores nothing. */
  lemma MissPassesThrough(store: map<Request, Response>, req: Request, net: Option<Response>)
    requires !IsPriceDocument(req) && req !in store
    ensures Handle(store, req, net) == (net, store)
  {
  }

  /** Every request other than the price document leaves the store unchanged. */
  lemma CacheFirstNeverWrites(store: map<Request, Response>, req: Request, net: Option<Response>)
    requires !IsPriceDocument(req)
    ensures Handle(store, req, net).1 == store
  {
  }

  /** After a successful install, every shell asset but the price document is served from the store. */
  lemma InstalledShellServedOffline(store: map<Request, Response>, origin: string, net: Request -> Option<Response>, p: string, later: Option<Response>)
    requires AllAssetsFetched(origin, net) && p in Assets && p != PricesPath
    ensures Handle(Installed(store, origin, net), AssetRequest(origin, p), later).0 == net(AssetRequest(origin, p))
  {
    InstallStoresEveryAsset(store, origin, net, p);
  }

  /** After a successful install, the price document is available offline as installed. */
  lemma InstalledPricesServedOffline(store: map<Request, Response>, origin: string, net: Request -> Option<Response>)
    requires AllAssetsFetched(origin, net)
    ensures Handle(Installed(store, origin, net), AssetRequest(origin, PricesPath), None).0
         == net(AssetRequest(origin, PricesPath))
  {
    InstallStoresEveryAsset(store, origin, net, PricesPath);
  }

  /** Installing and handling requests keep the store's keys to assets and price documents. */
  lemma StoreKeysStayValid(store: map<Request, Response>, origin: string, req: Request, net: Option<Response>, fetch: Request -> Option<Response>)
    requires StoreKeysValid(origin, store)
    ensures StoreKeysValid(origin, Handle(store, req, net).1)
    ensures StoreKeysValid(origin, Installed(store, origin, fetch))
  {
  }
}
