/** The message handler (requests from the app's pages) and the
    notification-click handler (which page to focus or open). */
module Messaging {
  import opened Http
  import opened Text
  import opened Config
  import opened CacheStore

  /** `event.data`: its `type` ("" when it has none) and its `urls` list,
      when it carries one. */
  datatype MessageData = MessageData(kind: string, urls: Option<seq<string>>)

  /** What a message asks the worker to do. */
  datatype Command = SkipWaiting | ReplyVersion(version: string) | CacheUrls(urls: Option<seq<string>>) | Ignore

  /** The `switch` on the message type. A missing message or type, and every
      unknown type, is ignored without an error. */
  function Dispatch(data: Option<MessageData>): (c: Command)
    ensures c == ReplyVersion(CACHE_NAME) <==> data.Some? && data.value.kind == "GET_VERSION"
    ensures c == SkipWaiting <==> data.Some? && data.value.kind == "SKIP_WAITING"
    ensures c.CacheUrls? <==> data.Some? && data.value.kind == "CACHE_URLS"
    ensures c.CacheUrls? ==> c.urls == data.value.urls
    ensures c == Ignore <==> data.None? || data.value.kind !in {"SKIP_WAITING", "GET_VERSION", "CACHE_URLS"}
  {
    if data.None? || data.value.kind == "" then Ignore
    else match data.value.kind
      case "SKIP_WAITING" => SkipWaiting
      case "GET_VERSION" => ReplyVersion(CACHE_NAME)
      case "CACHE_URLS" => CacheUrls(data.value.urls)
      case _ => Ignore
  }

  /** One fetch outcome per URL of a CACHE_URLS message. */
  predicate OutcomesFit(data: Option<MessageData>, outcomes: seq<NetOutcome>)
  {
    data.Some? && data.value.urls.Some? ==> |outcomes| == |data.value.urls.value|
  }

  /** The reply posted on the message's port, if any, and the store after. */
  datatype MessageStep = MessageStep(reply: Option<string>, store: Store)

  /** The message handler on a store. A CACHE_URLS message opens the current
      cache and adds its URLs all or nothing; a message without a list makes
      `addAll` reject once the cache is open. */
  function OnMessage(s: Store, scope: Scope, data: Option<MessageData>, outcomes: seq<NetOutcome>): MessageStep
    requires OutcomesFit(data, outcomes)
  {
    match Dispatch(data)
    case ReplyVersion(version) => MessageStep(Some(version), s)
    case CacheUrls(urls) =>
      if urls.Some?
      then MessageStep(None, OpenedAndAdded(s, CACHE_NAME, Resolved(scope, urls.value), outcomes))
      else MessageStep(None, Opened(s, CACHE_NAME))
    case _ => MessageStep(None, s)
  }

  /** The message handler, run against the host's CacheStorage. */
  method HandleMessage(cs: CacheStorage, scope: Scope, data: Option<MessageData>, outcomes: seq<NetOutcome>)
    returns (reply: Option<string>)
    requires cs.Valid() && OutcomesFit(data, outcomes)
    modifies cs
    ensures cs.Valid()
    ensures reply == OnMessage(old(cs.Snapshot()), scope, data, outcomes).reply
    ensures cs.Snapshot() == OnMessage(old(cs.Snapshot()), scope, data, outcomes).store
  {
    reply := None;
    match Dispatch(data)
    case ReplyVersion(version) =>
      reply := Some(version);
    case CacheUrls(urls) =>
      cs.Open(CACHE_NAME);
      if urls.Some? {
        var _ := cs.AddAll(CACHE_NAME, Resolved(scope, urls.value), outcomes);
      }
    case _ =>
  }

  /** Every message leaves the store well formed and storing only storable
      responses. A version request is answered with the current cache name
      whatever the store holds, and only a CACHE_URLS message changes the
      store, and then only the current cache. */
  lemma MessageEffects(s: Store, scope: Scope, data: Option<MessageData>, outcomes: seq<NetOutcome>)
    requires Wf(s) && OutcomesFit(data, outcomes)
    ensures OnMessage(s, scope, data, outcomes).reply ==
            if data.Some? && data.value.kind == "GET_VERSION" then Some(CACHE_NAME) else None
    ensures !(data.Some? && data.value.kind == "CACHE_URLS") ==> OnMessage(s, scope, data, outcomes).store == s
    ensures Wf(OnMessage(s, scope, data, outcomes).store)
    ensures StoredOk(s) ==> StoredOk(OnMessage(s, scope, data, outcomes).store)
    ensures forall n :: n in s.caches && n != CACHE_NAME ==>
            n in OnMessage(s, scope, data, outcomes).store.caches
            && OnMessage(s, scope, data, outcomes).store.caches[n] == s.caches[n]
  {
    var after := OnMessage(s, scope, data, outcomes).store;
    if data.Some? && data.value.kind == "CACHE_URLS" {
      if data.value.urls.Some? {
        AddAllFrame(s, CACHE_NAME, Resolved(scope, data.value.urls.value), outcomes);
      } else {
        assert after == Opened(s, CACHE_NAME);
        WfKept(s, CACHE_NAME, "", Response(0, ""), map[]);
        if StoredOk(s) {
          StoredOkKept(s, CACHE_NAME, "", Response(0, ""), [], []);
        }
        forall n | n in s.caches && n != CACHE_NAME
          ensures n in after.caches && after.caches[n] == s.caches[n]
        {
        }
      }
    } else {
      assert after == s;
    }
  }

  // ---------------------------------------------------------------------
  // Notification click

  /** An open window of the app, as `clients.matchAll()` lists it. */
  datatype Client = Client(url: string, focusable: bool)

  /** What a notification click leads to, beyond closing the notification. */
  datatype ClickEffect = Focus(index: nat) | OpenWindow(url: string) | NoEffect

  /** A window of this app that can be focused. */
  predicate IsAppWindow(c: Client, origin: string)
  {
    Contains(c.url, origin) && c.focusable
  }

  /** The `.then` callback of the notification-click handler: focuses the
      first listed window of the app; with none, opens the app's root when
      the value named `clients` inside the callback has an `openWindow`
      member (`openWindowInScope`). */
  method FocusOrOpen(clients: seq<Client>, origin: string, openWindowInScope: bool) returns (effect: ClickEffect)
    ensures effect.Focus? ==>
            effect.index < |clients| && IsAppWindow(clients[effect.index], origin)
            && forall j :: 0 <= j < effect.index ==> !IsAppWindow(clients[j], origin)
    ensures (exists j :: 0 <= j < |clients| && IsAppWindow(clients[j], origin)) ==> effect.Focus?
    ensures (forall j :: 0 <= j < |clients| ==> !IsAppWindow(clients[j], origin)) ==>
            effect == if openWindowInScope then OpenWindow("./") else NoEffect
  {
    var i := 0;
    while i < |clients|
      invariant 0 <= i <= |clients|
      invariant forall j :: 0 <= j < i ==> !IsAppWindow(clients[j], origin)
    {
      if Contains(clients[i].url, origin) && clients[i].focusable {
        return Focus(i);
      }
      i := i + 1;
    }
    if openWindowInScope {
      return OpenWindow("./");
    }
    return NoEffect;
  }

  /** The notification-click handler as written. For the "explore" action
      it focuses the first listed window of the app. Inside the callback the
      parameter `clients` is the list `matchAll()` resolved to, which hides
      the global `clients`; a list has no `openWindow`, so with no window of
      the app open nothing happens. Any other action only closes the
      notification. */
  method NotificationClick(action: string, clients: seq<Client>, origin: string) returns (effect: ClickEffect)
    ensures action != "explore" ==> effect == NoEffect
    ensures effect.Focus? ==>
            action == "explore" && effect.index < |clients| && IsAppWindow(clients[effect.index], origin)
            && forall j :: 0 <= j < effect.index ==> !IsAppWindow(clients[j], origin)
    ensures action == "explore" && (exists j :: 0 <= j < |clients| && IsAppWindow(clients[j], origin)) ==>
            effect.Focus?
    ensures (forall j :: 0 <= j < |clients| ==> !IsAppWindow(clients[j], origin)) ==> effect == NoEffect
  {
    if action != "explore" {
      return NoEffect;
    }
    effect := FocusOrOpen(clients, origin, false);
  }

  /** The notification-click handler as evidently intended: the test reads
      the global `clients` object, so with no window of the app open the
      app's root is opened whenever the host can open windows. */
  method NotificationClickIntended(action: string, clients: seq<Client>, origin: string, canOpenWindow: bool)
    returns (effect: ClickEffect)
    ensures action != "explore" ==> effect == NoEffect
    ensures effect.Focus? ==>
            action == "explore" && effect.index < |clients| && IsAppWindow(clients[effect.index], origin)
            && forall j :: 0 <= j < effect.index ==> !IsAppWindow(clients[j], origin)
    ensures action == "explore" && (exists j :: 0 <= j < |clients| && IsAppWindow(clients[j], origin)) ==>
            effect.Focus?
    ensures action == "explore" && (forall j :: 0 <= j < |clients| ==> !IsAppWindow(clients[j], origin)) ==>
            effect == if canOpenWindow then OpenWindow("./") else NoEffect
  {
    if action != "explore" {
      return NoEffect;
    }
    effect := FocusOrOpen(clients, origin, canOpenWindow);
  }

  /** The two differ on every "explore" click with no window of the app
      open, on a host that can open windows: the code as written opens
      nothing where the intended handler opens the app's root. */
  method ShadowedOpenWindowDiffers(clients: seq<Client>, origin: string)
    returns (asWritten: ClickEffect, intended: ClickEffect)
    requires forall j :: 0 <= j < |clients| ==> !IsAppWindow(clients[j], origin)
    ensures asWritten == NoEffect && intended == OpenWindow("./")
  {
    asWritten := NotificationClick("explore", clients, origin);
    intended := NotificationClickIntended("explore", clients, origin, true);
  }
}
