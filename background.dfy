/**
 * The background page's `cmd` message listener: a guard over an untyped message and a
 * switch over `cache_get`, `cache_put` and `cache_clear` against the URL-keyed page cache;
 * and the three messages the scripting panel sends to it.
 */
module Background {
  import opened Optional
  import opened Js

  /** The 'dom_cache_v1' cache: request URL to the stored response text. */
  type Store = map<string, string>

  /** A message the listener acts on. */
  datatype Command = CacheGet(url: string) | CachePut(url: string, doc: string) | CacheClear

  /** What the listener returns to the sender of the message. */
  datatype Reply =
    | NoReply                            // `undefined`: the message is not handled
    | CachedText(text: Option<string>)   // the stored text, or null when there is none
    | PutDone                            // the write has finished
    | ClearDone                          // the whole cache has been deleted

  /** The listener's guard and its `switch (msg.cmd)`: which command, if any, a message asks for. */
  function Parse(msg: JsValue): (c: Option<Command>)
    ensures !msg.Obj? ==> c == None
    ensures msg.Obj? && ("cmd" !in msg.props || "url" !in msg.props || !msg.props["url"].Str?) ==> c == None
  {
    if !Truthy(msg) then None
    else if TypeOf(msg) != "object" then None
    else if !Has(msg, "cmd") || !Has(msg, "url") then None
    else if TypeOf(Get(msg, "url")) != "string" then None
    else
      var url := Get(msg, "url").s;
      var cmd := Get(msg, "cmd");
      if cmd == Str("cache_get") then Some(CacheGet(url))
      else if cmd == Str("cache_put") then
        if !Has(msg, "doc") then None
        else if TypeOf(Get(msg, "doc")) != "string" then None
        else Some(CachePut(url, Get(msg, "doc").s))
      else if cmd == Str("cache_clear") then Some(CacheClear)
      else None
  }

  /**
   * The listener acts on exactly the well-formed messages: an object with a string `url`
   * and a `cmd` it knows, and for `cache_put` a string `doc`.
   */
  lemma ParseAcceptsExactly(msg: JsValue)
    ensures Parse(msg) == Some(CacheClear) <==>
              msg.Obj? && "url" in msg.props && msg.props["url"].Str?
              && "cmd" in msg.props && msg.props["cmd"] == Str("cache_clear")
    ensures forall u :: Parse(msg) == Some(CacheGet(u)) <==>
              msg.Obj? && "url" in msg.props && msg.props["url"] == Str(u)
              && "cmd" in msg.props && msg.props["cmd"] == Str("cache_get")
    ensures forall u, d :: Parse(msg) == Some(CachePut(u, d)) <==>
              msg.Obj? && "url" in msg.props && msg.props["url"] == Str(u)
              && "cmd" in msg.props && msg.props["cmd"] == Str("cache_put")
              && "doc" in msg.props && msg.props["doc"] == Str(d)
  {
  }

  /** One command against the store: the reply and the store afterwards. */
  function Handle(c: Command, store: Store): (r: (Reply, Store))
    ensures c.CacheGet? ==> r.1 == store
    ensures c.CacheGet? ==> r.0.CachedText? && (r.0.text.Some? <==> c.url in store)
    ensures c.CacheGet? && c.url in store ==> r.0.text.value == store[c.url]
    ensures c.CachePut? ==> r.0 == PutDone && r.1.Keys == store.Keys + {c.url} && r.1[c.url] == c.doc
    ensures c.CachePut? ==> forall u :: u in store && u != c.url ==> r.1[u] == store[u]
    ensures c.CacheClear? ==> r.0 == ClearDone && r.1 == map[]
  {
    match c
    case CacheGet(url) => (CachedText(if url in store then Some(store[url]) else None), store)
    case CachePut(url, doc) => (PutDone, store[url := doc])
    case CacheClear => (ClearDone, map[])
  }

  /** The listener: a message it does not act on gets no reply and leaves the store alone. */
  function OnMessage(msg: JsValue, store: Store): (r: (Reply, Store))
    ensures Parse(msg).None? ==> r == (NoReply, store)
    ensures Parse(msg).Some? ==> r.0 != NoReply
  {
    match Parse(msg)
    case None => (NoReply, store)
    case Some(c) => Handle(c, store)
  }

  /** The panel's `getCache(url)` message. */
  function GetCacheMessage(url: string): JsValue {
    Obj(map["cmd" := Str("cache_get"), "url" := Str(url)])
  }

  /** The panel's `putCache(url, data)` message; `data` is whatever the page sent back. */
  function PutCacheMessage(url: string, data: JsValue): JsValue {
    Obj(map["cmd" := Str("cache_put"), "url" := Str(url), "doc" := data])
  }

  /** The panel's `clearCache()` message, which carries an empty `url`. */
  function ClearCacheMessage(): JsValue {
    Obj(map["cmd" := Str("cache_clear"), "url" := Str("")])
  }

  /** Every message the panel builds is understood as the command it stands for. */
  lemma PanelMessagesParse(url: string, data: JsValue)
    ensures Parse(GetCacheMessage(url)) == Some(CacheGet(url))
    ensures data.Str? ==> Parse(PutCacheMessage(url, data)) == Some(CachePut(url, data.s))
    ensures !data.Str? ==> Parse(PutCacheMessage(url, data)) == None
    ensures Parse(ClearCacheMessage()) == Some(CacheClear)
  {
  }

  /** The panel's put of a text stores it under the URL and touches nothing else. */
  lemma PutStoresText(store: Store, url: string, doc: string)
    ensures OnMessage(PutCacheMessage(url, Str(doc)), store) == (PutDone, store[url := doc])
  {
    PanelMessagesParse(url, Str(doc));
  }

  /** After a put, a get of the same URL answers with exactly the text stored. */
  lemma GetAfterPut(store: Store, url: string, doc: string)
    ensures var s := OnMessage(PutCacheMessage(url, Str(doc)), store).1;
            OnMessage(GetCacheMessage(url), s) == (CachedText(Some(doc)), s)
  {
    PanelMessagesParse(url, Str(doc));
  }

  /** Two puts to one URL: the later one wins. */
  lemma LastPutWins(store: Store, url: string, first: string, second: string)
    ensures var s1 := OnMessage(PutCacheMessage(url, Str(first)), store).1;
            var s2 := OnMessage(PutCacheMessage(url, Str(second)), s1).1;
            OnMessage(GetCacheMessage(url), s2).0 == CachedText(Some(second))
  {
    PanelMessagesParse(url, Str(first));
    PanelMessagesParse(url, Str(second));
  }

  /** A put whose `doc` is not a string is ignored: no reply, no write. */
  lemma PutWithoutTextIgnored(store: Store, url: string, data: JsValue)
    requires !data.Str?
    ensures OnMessage(PutCacheMessage(url, data), store) == (NoReply, store)
  {
    PanelMessagesParse(url, data);
  }

  /** After a clear every get answers null. */
  lemma GetAfterClear(store: Store, url: string)
    ensures var s := OnMessage(ClearCacheMessage(), store).1;
            OnMessage(GetCacheMessage(url), s).0 == CachedText(None)
  {
    PanelMessagesParse(url, Undefined);
  }
}
