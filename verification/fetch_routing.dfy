/** The fetch handler: which requests the worker intercepts, what it answers
    with, and what it writes into the current cache. The network's answer is
    an input; the background write that the handler leaves running after it
    has answered is taken to complete before the next event. */
module FetchRouting {
  import opened Http
  import opened Text
  import opened Config
  import opened CacheStore

  /** The request filters: only GET requests are intercepted, never one for
      the backend ("supabase.co"), and never one whose URL mentions "api"
      unless it also mentions the worker's own origin. */
  predicate Intercepts(req: Request, origin: string)
  {
    req.verb == "GET"
    && !Contains(req.url, "supabase.co")
    && !(Contains(req.url, "api") && !Contains(req.url, origin))
  }

  /** The `accept` header is present and mentions "text/html". */
  predicate WantsHtml(req: Request)
  {
    req.accept.Some? && Contains(req.accept.value, "text/html")
  }

  /** The allow-list of the miss path: same origin as the worker, or one of
      the listed third-party hosts. */
  predicate MayStore(req: Request, origin: string)
  {
    req.origin == origin || req.hostname in ALLOWED_HOSTS
  }

  /** What the fetch event ends with: not intercepted (the host fetches on
      its own), answered with a response, answered with `undefined` (the
      offline fallback was not cached), or a rejected answer (a network
      error for the page). */
  datatype Reply = PassThrough | Serve(resp: Response) | ServeUndefined | Reject

  datatype FetchStep = FetchStep(reply: Reply, store: Store)

  /** The hit path's background refresh: an ok network response replaces
      the entry in the current cache. A network error is swallowed. */
  function Refresh(s: Store, url: string, net: NetOutcome): Store
  {
    if net.NetResponse? && Ok(net.resp)
    then Written(Opened(s, CACHE_NAME), CACHE_NAME, url, net.resp)
    else s
  }

  /** The miss path's copy of an ok response: the current cache is opened in
      every case, and the response is put only for an allow-listed request. */
  function CacheCopy(s: Store, req: Request, origin: string, resp: Response): Store
  {
    var withCurrent := Opened(s, CACHE_NAME);
    if MayStore(req, origin) then Written(withCurrent, CACHE_NAME, req.url, resp) else withCurrent
  }

  /** The whole fetch handler on a store, given the outcome of the one
      network fetch it may issue. */
  function OnFetch(s: Store, scope: Scope, req: Request, net: NetOutcome): FetchStep
  {
    if !Intercepts(req, scope.origin) then FetchStep(PassThrough, s)
    else match Lookup(s, req.url)
      case Some(hit) =>
        FetchStep(Serve(hit), if WantsHtml(req) then Refresh(s, req.url, net) else s)
      case None =>
        match net
        case NetError =>
          if req.mode == "navigate" then
            match Lookup(s, scope.resolve(INDEX_URL))
            case Some(page) => FetchStep(Serve(page), s)
            case None => FetchStep(ServeUndefined, s)
          else FetchStep(Reject, s)
        case NetResponse(resp) =>
          if !Ok(resp) then FetchStep(Serve(resp), s)
          else FetchStep(Serve(resp), CacheCopy(s, req, scope.origin, resp))
  }

  /** The fetch event handler, run against the host's CacheStorage. */
  method HandleFetch(cs: CacheStorage, scope: Scope, req: Request, net: NetOutcome) returns (reply: Reply)
    requires cs.Valid()
    modifies cs
    ensures cs.Valid()
    ensures reply == OnFetch(old(cs.Snapshot()), scope, req, net).reply
    ensures cs.Snapshot() == OnFetch(old(cs.Snapshot()), scope, req, net).store
  {
    if !Intercepts(req, scope.origin) {
      return PassThrough;
    }
    var cached := cs.Match(req.url);
    match cached
    case Some(hit) =>
      if WantsHtml(req) && net.NetResponse? && Ok(net.resp) {
        cs.Open(CACHE_NAME);
        var _ := cs.Put(CACHE_NAME, req.url, net.resp);
      }
      reply := Serve(hit);
    case None =>
      match net
      case NetError =>
        if req.mode == "navigate" {
          var page := cs.Match(scope.resolve(INDEX_URL));
          reply := if page.Some? then Serve(page.value) else ServeUndefined;
        } else {
          reply := Reject;
        }
      case NetResponse(resp) =>
        reply := Serve(resp);
        if Ok(resp) {
          cs.Open(CACHE_NAME);
          if MayStore(req, scope.origin) {
            var _ := cs.Put(CACHE_NAME, req.url, resp);
          }
        }
  }

  // ---------------------------------------------------------------------
  // The filters

  /** The handler declines exactly the requests the filters reject, and
      then leaves the store as it was. */
  lemma PassThroughIffFiltered(s: Store, scope: Scope, req: Request, net: NetOutcome)
    ensures OnFetch(s, scope, req, net).reply == PassThrough <==> !Intercepts(req, scope.origin)
    ensures !Intercepts(req, scope.origin) ==> OnFetch(s, scope, req, net).store == s
    ensures req.verb != "GET" || Contains(req.url, "supabase.co") ==> !Intercepts(req, scope.origin)
  {
  }

  /** A parsed URL's text contains its host name. */
  predicate HostInUrl(req: Request)
  {
    Contains(req.url, req.hostname)
  }

  /** A fonts.googleapis.com request whose URL does not mention the worker's
      origin always passes through, so that allow-list entry never causes a
      write. */
  lemma FontsApiHostNeverIntercepted(s: Store, scope: Scope, req: Request, net: NetOutcome)
    requires HostInUrl(req) && req.hostname == "fonts.googleapis.com"
    requires !Contains(req.url, scope.origin)
    ensures OnFetch(s, scope, req, net) == FetchStep(PassThrough, s)
  {
    var host := "fonts.googleapis.com";
    assert host[12..15] == "api";
    OccurrenceIsContained(host, "api", 12);
    ContainsTransitive(req.url, host, "api");
  }

  /** The premise about the origin is needed: a GET fonts.googleapis.com
      request whose URL mentions the worker's origin (and not the backend)
      is intercepted and, on a miss with a storable response, stored. */
  lemma FontsApiHostStoredWhenUrlNamesOrigin(s: Store, scope: Scope, req: Request, resp: Response)
    requires Wf(s) && Lookup(s, req.url).None? && Storable(resp)
    requires req.verb == "GET" && req.hostname == "fonts.googleapis.com"
    requires Contains(req.url, scope.origin) && !Contains(req.url, "supabase.co")
    ensures Lookup(OnFetch(s, scope, req, NetResponse(resp)).store, req.url) == Some(resp)
  {
    assert Intercepts(req, scope.origin) && MayStore(req, scope.origin);
    MissOkServedAndStored(s, scope, req, resp);
  }

  // ---------------------------------------------------------------------
  // Cache hit

  /** On a hit the cached entry is the answer. The store changes only for an
      HTML request whose background fetch is ok; the new entry goes to the
      current cache whatever the host, and no other URL's lookup changes. */
  lemma HitServesCached(s: Store, scope: Scope, req: Request, net: NetOutcome, hit: Response)
    requires Wf(s) && Intercepts(req, scope.origin) && Lookup(s, req.url) == Some(hit)
    ensures OnFetch(s, scope, req, net).reply == Serve(hit)
    ensures !(WantsHtml(req) && net.NetResponse? && Ok(net.resp)) ==> OnFetch(s, scope, req, net).store == s
    ensures WantsHtml(req) && net.NetResponse? && Storable(net.resp) ==>
            Holds(OnFetch(s, scope, req, net).store, CACHE_NAME, req.url)
            && OnFetch(s, scope, req, net).store.caches[CACHE_NAME][req.url] == net.resp
    ensures forall u :: u != req.url ==> Lookup(OnFetch(s, scope, req, net).store, u) == Lookup(s, u)
  {
    forall u | u != req.url
      ensures Lookup(OnFetch(s, scope, req, net).store, u) == Lookup(s, u)
    {
      if WantsHtml(req) && net.NetResponse? && Ok(net.resp) {
        LookupOpened(s, CACHE_NAME, u);
        LookupWritten(Opened(s, CACHE_NAME), CACHE_NAME, req.url, net.resp, u);
      }
    }
  }

  /** The refreshed copy goes to the current cache, but lookups search the
      caches in creation order: while an older generation listed first still
      holds the URL, its stale entry stays the answer, before and after any
      fetch. */
  lemma StaleOlderGenerationStillServed(s: Store, scope: Scope, req: Request, net: NetOutcome)
    requires Wf(s) && |s.names| > 0 && s.names[0] != CACHE_NAME && Holds(s, s.names[0], req.url)
    ensures Lookup(s, req.url) == Some(s.caches[s.names[0]][req.url])
    ensures Lookup(OnFetch(s, scope, req, net).store, req.url) == Lookup(s, req.url)
  {
    var after := OnFetch(s, scope, req, net).store;
    FetchStoreShape(s, scope, req, net);
    assert after.names[0] == s.names[0] && Holds(after, s.names[0], req.url);
    assert after.caches[s.names[0]] == s.caches[s.names[0]];
  }

  // ---------------------------------------------------------------------
  // Cache miss

  /** On a miss, a response that is not ok is the answer and nothing is
      stored. */
  lemma MissNotOkPassedOn(s: Store, scope: Scope, req: Request, resp: Response)
    requires Intercepts(req, scope.origin) && Lookup(s, req.url).None? && !Ok(resp)
    ensures OnFetch(s, scope, req, NetResponse(resp)) == FetchStep(Serve(resp), s)
  {
  }

  /** On a miss, an ok response is the answer; afterwards a lookup of the URL
      finds it exactly when the request is allow-listed (and not 206); no
      other URL's lookup changes, and no cache but the current one changes. */
  lemma MissOkServedAndStored(s: Store, scope: Scope, req: Request, resp: Response)
    requires Wf(s) && Intercepts(req, scope.origin) && Lookup(s, req.url).None? && Ok(resp)
    ensures OnFetch(s, scope, req, NetResponse(resp)).reply == Serve(resp)
    ensures Lookup(OnFetch(s, scope, req, NetResponse(resp)).store, req.url) ==
            if MayStore(req, scope.origin) && resp.status != 206 then Some(resp) else None
    ensures forall u :: u != req.url ==>
            Lookup(OnFetch(s, scope, req, NetResponse(resp)).store, u) == Lookup(s, u)
    ensures forall n :: n != CACHE_NAME ==>
            (n in OnFetch(s, scope, req, NetResponse(resp)).store.caches <==> n in s.caches)
            && (n in s.caches ==> OnFetch(s, scope, req, NetResponse(resp)).store.caches[n] == s.caches[n])
  {
    var withCurrent := Opened(s, CACHE_NAME);
    LookupOpened(s, CACHE_NAME, req.url);
    forall u ensures Lookup(OnFetch(s, scope, req, NetResponse(resp)).store, u) ==
                     if u == req.url then
                       (if MayStore(req, scope.origin) && resp.status != 206 then Some(resp) else None)
                     else Lookup(s, u)
    {
      LookupOpened(s, CACHE_NAME, u);
      if MayStore(req, scope.origin) {
        LookupWritten(withCurrent, CACHE_NAME, req.url, resp, u);
      }
    }
  }

  /** On a miss without network, a navigation is answered from the cached
      index page (or with `undefined` when that is missing too), any other
      request is rejected, and the store is left as it was. */
  lemma MissOfflineFallback(s: Store, scope: Scope, req: Request)
    requires Intercepts(req, scope.origin) && Lookup(s, req.url).None?
    ensures OnFetch(s, scope, req, NetError).store == s
    ensures req.mode != "navigate" ==> OnFetch(s, scope, req, NetError).reply == Reject
    ensures req.mode == "navigate" ==>
            OnFetch(s, scope, req, NetError).reply ==
              match Lookup(s, scope.resolve(INDEX_URL))
              case Some(page) => Serve(page)
              case None => ServeUndefined
  {
  }

  // ---------------------------------------------------------------------
  // What any fetch may do to the store

  /** A fetch keeps the store well formed, never writes a response that is
      not ok, and touches no cache but the current one. */
  lemma FetchKeepsStore(s: Store, scope: Scope, req: Request, net: NetOutcome)
    requires Wf(s) && StoredOk(s)
    ensures Wf(OnFetch(s, scope, req, net).store)
    ensures StoredOk(OnFetch(s, scope, req, net).store)
    ensures forall n :: n in s.caches && n != CACHE_NAME ==>
            n in OnFetch(s, scope, req, net).store.caches
            && OnFetch(s, scope, req, net).store.caches[n] == s.caches[n]
  {
    var t := OnFetch(s, scope, req, net).store;
    var withCurrent := Opened(s, CACHE_NAME);
    WfKept(s, CACHE_NAME, req.url, Response(0, ""), map[]);
    StoredOkKept(s, CACHE_NAME, req.url, Response(0, ""), [], []);
    forall n | n in s.caches && n != CACHE_NAME
      ensures n in withCurrent.caches && withCurrent.caches[n] == s.caches[n]
    {
    }
    if net.NetResponse? && Ok(net.resp) {
      var written := Written(withCurrent, CACHE_NAME, req.url, net.resp);
      WfKept(withCurrent, CACHE_NAME, req.url, net.resp, map[]);
      StoredOkKept(withCurrent, CACHE_NAME, req.url, net.resp, [], []);
      forall n | n in s.caches && n != CACHE_NAME
        ensures n in written.caches && written.caches[n] == s.caches[n]
      {
      }
    }
    FetchStoreShape(s, scope, req, net);
  }

  /** A fetch leaves the store as it was, only opens the current cache, or
      opens it and puts an ok network response under the request's URL. */
  lemma FetchStoreShape(s: Store, scope: Scope, req: Request, net: NetOutcome)
    ensures OnFetch(s, scope, req, net).store == s
            || OnFetch(s, scope, req, net).store == Opened(s, CACHE_NAME)
            || (net.NetResponse? && Ok(net.resp) && CACHE_NAME in Opened(s, CACHE_NAME).caches
                && OnFetch(s, scope, req, net).store == Written(Opened(s, CACHE_NAME), CACHE_NAME, req.url, net.resp))
  {
  }
}
