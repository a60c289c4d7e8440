/**
 * `captureDom(url)`: one page capture, from the empty-URL check and the cache lookup
 * through opening a background tab, the race between page load, an outside close of the
 * tab and a 60-second timer, the `getDom` request to the page, closing the tab and
 * writing the cache, to the parsed document with `<base href=url>`.
 *
 * The browser's answers (the new tab, tab updates and removals, the timer, the page's
 * reply, the outcome of `tabs.remove` and of the cache write) arrive as events. `Step`
 * is the specification of how the pending capture reacts to each; the class `CaptureDom`
 * holds the same state in fields and updates it in place, one method per callback.
 */
module Capture {
  import opened Optional
  import opened Js
  import opened Promises
  import opened Browser
  import Background

  /** The tab `captureDom` opens waits at most this long for the page (milliseconds). */
  const LOAD_TIMEOUT_MS := 60000

  /** A parsed page: its markup and the `href` of the `<base>` appended to its head. */
  datatype Document = Document(markup: string, baseHref: string)

  /** What the pending capture is waiting for. */
  datatype Phase =
    | OpeningTab                          // `await browser.tabs.create(...)`
    | Loading                             // the race: load, outside close or timeout
    | RequestingDom                       // listeners removed, `getDom` sent to the page
    | RemovingTab(serialized: JsValue)    // `await browser.tabs.remove(tabId)` after a reply
    | PuttingCache(serialized: JsValue)   // `await putCache(url, cachedDoc)`
    | Settled                             // the returned promise has settled

  /** What the browser reports back to the panel. */
  datatype Event =
    | TabCreated(id: TabId)                                           // `tabs.create` resolved
    | TabCreateFailed(error: string)                                  // `tabs.create` rejected
    | TabUpdated(id: TabId, status: Option<string>, tabUrl: Option<string>)  // tabs.onUpdated
    | TabRemoved(id: TabId)                                           // tabs.onRemoved
    | TimerFired                                                      // the 60000 ms timer
    | DomReply(reply: JsValue)                                        // `tabs.sendMessage` resolved
    | DomRequestFailed(error: string)                                 // `tabs.sendMessage` rejected
    | RemoveSettled(removeError: Option<string>)                          // awaited `tabs.remove`
    | PutSettled(putError: Option<string>)                             // awaited `putCache`

  /** The capture's own variables and the parts of the browser it touches. */
  datatype CaptureState = CaptureState(
    url: string,
    phase: Phase,
    tab: Option<TabId>,              // the tab this capture opened
    closed: bool,                    // the `closed` flag
    onUpdated: bool,                 // `handler` is subscribed to tabs.onUpdated
    onRemoved: bool,                 // `closedHandler` is subscribed to tabs.onRemoved
    tabs: set<TabId>,                // the tabs open in the browser
    removals: seq<TabId>,            // the `tabs.remove` calls made, oldest first
    cache: Background.Store,         // the background page's cache
    outcome: Settlement<Document>)   // the promise `captureDom` returned

  /**
   * The synchronous start: reject an empty URL, else ask the background page for a
   * cached copy; a hit is parsed at once, a miss goes on to open a tab.
   */
  function Start(url: string, cache: Background.Store, tabs: set<TabId>): (s: CaptureState)
    ensures s.url == url && s.cache == cache && s.tabs == tabs
    ensures s.tab == None && s.removals == [] && !s.onUpdated && !s.onRemoved && !s.closed
    ensures url == "" ==> s.outcome == Rejected(EmptyUrl)
    ensures url != "" && url in cache ==> s.outcome == Fulfilled(Document(cache[url], url))
    ensures url != "" && url !in cache ==> s.phase == OpeningTab && s.outcome == Pending
  {
    var initial := CaptureState(url, OpeningTab, None, false, false, false, tabs, [], cache, Pending);
    if url == "" then Settle(initial, Rejected(EmptyUrl))
    else
      Background.PanelMessagesParse(url, Undefined);
      match Background.OnMessage(Background.GetCacheMessage(url), cache).0
      case CachedText(Some(text)) => Settle(initial, Fulfilled(Document(text, url)))
      case _ => initial
  }

  function Settle(s: CaptureState, outcome: Settlement<Document>): CaptureState {
    s.(phase := Settled, outcome := outcome)
  }

  /** `browser.tabs.remove(tabId)` on the capture's tab: the tab goes, and the call is logged. */
  function RemoveTab(s: CaptureState): CaptureState
    requires s.tab.Some?
  {
    s.(tabs := s.tabs - {s.tab.value}, removals := s.removals + [s.tab.value])
  }

  /** The race has not settled yet, and the capture has a tab. */
  predicate RacePending(s: CaptureState) {
    (s.phase.Loading? || s.phase.RequestingDom?) && s.tab.Some?
  }

  /** The race's `.catch`: close the tab unless it was closed from outside, then rethrow. */
  function RejectRace(s: CaptureState, why: Failure): CaptureState
    requires s.tab.Some?
  {
    if s.closed then Settle(s, Rejected(why)) else Settle(RemoveTab(s), Rejected(why))
  }

  /** The load gate of `handler`: this capture's tab has finished loading a real page. */
  predicate LoadComplete(s: CaptureState, id: TabId, status: Option<string>, tabUrl: Option<string>) {
    s.tab == Some(id) && status == Some("complete") && tabUrl != Some("about:blank")
  }

  /** `typeof res == 'object'` for a truthy `res`: the page sent back an object. */
  predicate IsObjectReply(v: JsValue) {
    Truthy(v) && TypeOf(v) == "object"
  }

  /** How the capture reacts to one event; an event it is not waiting for changes nothing. */
  function Step(s: CaptureState, e: Event): (r: CaptureState)
    ensures r.url == s.url
    ensures s.phase.Settled? ==> r.phase.Settled? && r.outcome == s.outcome && r.removals == s.removals && r.cache == s.cache
  {
    match e
    case TabCreated(id) =>
      if s.phase.OpeningTab? then
        s.(phase := Loading, tab := Some(id), tabs := s.tabs + {id}, onUpdated := true, onRemoved := true)
      else s
    case TabCreateFailed(error) =>
      if s.phase.OpeningTab? then Settle(s, Rejected(Thrown(error))) else s
    case TabUpdated(id, status, tabUrl) =>
      // `handler` stays subscribed after a timeout, so it can still run once the race is over
      if s.onUpdated && LoadComplete(s, id, status, tabUrl) then
        s.(phase := if s.phase.Loading? then RequestingDom else s.phase, onUpdated := false, onRemoved := false)
      else s
    case TabRemoved(id) =>
      var s' := s.(tabs := s.tabs - {id});
      if s.onRemoved && s.tab == Some(id) then
        if s.phase.Loading? then RejectRace(s'.(closed := true), TabClosed) else s'.(closed := true)
      else s'
    case TimerFired =>
      if RacePending(s) then RejectRace(s, Timeout) else s
    case DomReply(reply) =>
      // a reply that is not an object is only logged: the race goes on
      if s.phase.RequestingDom? && s.tab.Some? && IsObjectReply(reply) then
        RemoveTab(s).(phase := RemovingTab(Get(reply, "serializedDocument")))
      else s
    case DomRequestFailed(error) =>
      if s.phase.RequestingDom? && s.tab.Some? then RejectRace(s, Thrown(error)) else s
    case RemoveSettled(error) =>
      if s.phase.RemovingTab? then
        if error.None? then s.(phase := PuttingCache(s.phase.serialized))
        else Settle(s, Rejected(Thrown(error.value)))
      else s
    case PutSettled(error) =>
      if s.phase.PuttingCache? then
        var doc := s.phase.serialized;
        if error.None? then
          var written := Background.OnMessage(Background.PutCacheMessage(s.url, doc), s.cache).1;
          Settle(s.(cache := written), Fulfilled(Document(ToText(doc), s.url)))
        else Settle(s, Rejected(Thrown(error.value)))
      else s
  }

  /** The events of a trace, one after the other. */
  function Run(s: CaptureState, events: seq<Event>): (r: CaptureState)
    ensures r.url == s.url
    decreases |events|
  {
    if events == [] then s else Run(Step(s, events[0]), events[1..])
  }

  /** What holds of every state a capture can reach. */
  ghost predicate Inv(s: CaptureState) {
    // exactly one terminal outcome, and only once the capture is over
    && (s.phase.Settled? <==> !s.outcome.Pending?)
    && (s.outcome == Rejected(EmptyUrl) <==> s.url == "")
    && (s.outcome.Fulfilled? ==> s.outcome.value.baseHref == s.url)
    // both listeners are added together and removed together
    && s.onUpdated == s.onRemoved
    && (s.onUpdated ==> s.tab.Some?)
    && (s.closed ==> s.phase.Settled? && s.tab.Some?)
    && (s.phase.OpeningTab? ==> s.tab.None? && !s.onUpdated)
    && (s.phase.Loading? ==> s.tab.Some? && s.onUpdated && s.tab.value in s.tabs && s.removals == [])
    && (s.phase.RequestingDom? ==> s.tab.Some? && !s.onUpdated && s.removals == [])
    && (s.phase.RemovingTab? || s.phase.PuttingCache? ==>
          s.tab.Some? && !s.onUpdated && s.removals == [s.tab.value] && s.tab.value !in s.tabs)
    // the tab is removed at most once, and not at all when the capture rejects "Tab closed"
    && |s.removals| <= 1
    && (s.removals != [] ==> s.tab.Some? && s.removals[0] == s.tab.value)
    && (s.outcome == Rejected(TabClosed) ==> s.removals == [])
    && (s.outcome.Rejected? && s.outcome.reason != TabClosed && s.tab.Some? ==> s.removals == [s.tab.value])
    // no tab is left open once the capture is over
    && (s.phase.Settled? && s.tab.Some? ==> s.tab.value !in s.tabs)
  }

  lemma StartInv(url: string, cache: Background.Store, tabs: set<TabId>)
    ensures Inv(Start(url, cache, tabs))
  {
  }

  /** Every event keeps the invariant. */
  lemma StepKeepsInv(s: CaptureState, e: Event)
    requires Inv(s)
    ensures Inv(Step(s, e))
  {
  }

  lemma {:induction false} RunKeepsInv(s: CaptureState, events: seq<Event>)
    requires Inv(s)
    ensures Inv(Run(s, events))
    decreases |events|
  {
    if events != [] {
      StepKeepsInv(s, events[0]);
      RunKeepsInv(Step(s, events[0]), events[1..]);
    }
  }

  /** Once settled, a capture stays settled with the same outcome, whatever else happens. */
  lemma {:induction false} SettledIsFinal(s: CaptureState, events: seq<Event>)
    requires s.phase.Settled?
    ensures Run(s, events).phase.Settled?
    ensures Run(s, events).outcome == s.outcome
    ensures Run(s, events).removals == s.removals
    ensures Run(s, events).cache == s.cache
    decreases |events|
  {
    if events != [] {
      SettledIsFinal(Step(s, events[0]), events[1..]);
    }
  }

  /**
   * Whatever the browser does, a capture removes its tab at most once and not at all when
   * it rejects "Tab closed", leaves no tab of its own open once it has settled, and answers
   * with a document whose base is the requested URL.
   */
  lemma CaptureIsSafe(url: string, cache: Background.Store, tabs: set<TabId>, events: seq<Event>)
    ensures var f := Run(Start(url, cache, tabs), events);
            && |f.removals| <= 1
            && (f.outcome == Rejected(TabClosed) ==> f.removals == [])
            && (f.phase.Settled? && f.tab.Some? ==> f.tab.value !in f.tabs)
            && (f.outcome.Fulfilled? ==> f.outcome.value.baseHref == url)
            && (f.phase.Settled? <==> !f.outcome.Pending?)
  {
    StartInv(url, cache, tabs);
    RunKeepsInv(Start(url, cache, tabs), events);
  }

  /** An empty URL is rejected before any cache lookup or tab, and nothing follows. */
  lemma EmptyUrlRejects(cache: Background.Store, tabs: set<TabId>, events: seq<Event>)
    ensures var f := Run(Start("", cache, tabs), events);
            f.outcome == Rejected(EmptyUrl) && f.tab == None && f.removals == [] && f.cache == cache
  {
    SettledIsFinal(Start("", cache, tabs), events);
    TabNeverOpened(Start("", cache, tabs), events);
  }

  /** A cache hit opens no tab: the capture answers with the cached text. */
  lemma CacheHitOpensNoTab(url: string, cache: Background.Store, tabs: set<TabId>, events: seq<Event>)
    requires url != "" && url in cache
    ensures var f := Run(Start(url, cache, tabs), events);
            f.outcome == Fulfilled(Document(cache[url], url)) && f.tab == None && f.removals == []
  {
    SettledIsFinal(Start(url, cache, tabs), events);
    TabNeverOpened(Start(url, cache, tabs), events);
  }

  lemma {:induction false} TabNeverOpened(s: CaptureState, events: seq<Event>)
    requires s.phase.Settled? && s.tab == None
    ensures Run(s, events).tab == None
    decreases |events|
  {
    if events != [] {
      TabNeverOpened(Step(s, events[0]), events[1..]);
    }
  }

  /**
   * The load gate: while loading, an update moves the capture on exactly when it is about
   * this capture's tab, the status is "complete" and the page is not about:blank; moving
   * on unsubscribes both listeners. Any other update changes nothing.
   */
  lemma LoadGate(s: CaptureState, id: TabId, status: Option<string>, tabUrl: Option<string>)
    requires Inv(s) && s.phase.Loading?
    ensures var t := Step(s, TabUpdated(id, status, tabUrl));
            && (t.phase == RequestingDom <==>
                  s.tab == Some(id) && status == Some("complete") && tabUrl != Some("about:blank"))
            && (t.phase == RequestingDom ==> !t.onUpdated && !t.onRemoved && t.outcome.Pending?)
            && (t.phase != RequestingDom ==> t == s)
  {
  }

  /** A close from outside while loading sets `closed` and rejects "Tab closed" without removing the tab. */
  lemma OutsideCloseRejects(s: CaptureState)
    requires Inv(s) && s.phase.Loading?
    ensures var t := Step(s, TabRemoved(s.tab.value));
            t.closed && t.outcome == Rejected(TabClosed) && t.removals == [] && s.tab.value !in t.tabs
  {
  }

  /** The timeout, and a failed `getDom` request, close the tab once and reject with that error. */
  lemma RaceFailureRemovesTab(s: CaptureState, e: Event)
    requires Inv(s) && (s.phase.Loading? || s.phase.RequestingDom?)
    requires e == TimerFired || (e.DomRequestFailed? && s.phase.RequestingDom?)
    ensures var t := Step(s, e);
            && t.outcome == Rejected(if e == TimerFired then Timeout else Thrown(e.error))
            && t.removals == [s.tab.value]
            && s.tab.value !in t.tabs
  {
  }

  /** A reply that is not an object changes nothing, so only the timer can end the wait. */
  lemma NonObjectReplyIgnored(s: CaptureState, reply: JsValue)
    requires Inv(s) && s.phase.RequestingDom?
    requires !reply.Obj?
    ensures Step(s, DomReply(reply)) == s
    ensures Step(s, TimerFired).outcome == Rejected(Timeout)
  {
  }

  lemma {:induction false} RunAppend(s: CaptureState, a: seq<Event>, b: seq<Event>)
    ensures Run(s, a + b) == Run(Run(s, a), b)
    decreases |a|
  {
    if a == [] {
      assert a + b == b;
    } else {
      RunAppend(Step(s, a[0]), a[1..], b);
      assert (a + b)[1..] == a[1..] + b;
    }
  }

  /** A trace of two events is the two steps, one after the other. */
  lemma RunPair(s: CaptureState, a: Event, b: Event)
    ensures Run(s, [a, b]) == Step(Step(s, a), b)
  {
    assert [a, b][1..] == [b] && [b][1..] == [];
    assert Run(s, [a, b]) == Run(Step(s, a), [b]);
    assert Run(Step(s, a), [b]) == Run(Step(Step(s, a), b), []);
  }

  /** A trace of three events is the three steps, one after the other. */
  lemma RunTriple(s: CaptureState, a: Event, b: Event, c: Event)
    ensures Run(s, [a, b, c]) == Step(Step(Step(s, a), b), c)
  {
    assert [a, b, c][1..] == [b, c];
    assert Run(s, [a, b, c]) == Run(Step(s, a), [b, c]);
    RunPair(Step(s, a), b, c);
  }

  /** The page-side half of a successful miss: tab opened, loaded, asked and closed. */
  function FetchTrace(id: TabId, doc: string): seq<Event> {
    [TabCreated(id),
     TabUpdated(id, Some("complete"), Some("https://example.org/")),
     DomReply(Obj(map["serializedDocument" := Str(doc)]))]
  }

  /** The cache-side half of a successful miss: the tab removal and the cache write succeed. */
  function StoreTrace(): seq<Event> {
    [RemoveSettled(None), PutSettled(None)]
  }

  lemma MissFetches(url: string, cache: Background.Store, tabs: set<TabId>, id: TabId, doc: string)
    requires url != "" && url !in cache && id !in tabs
    ensures var m := Run(Start(url, cache, tabs), FetchTrace(id, doc));
            m.phase == RemovingTab(Str(doc)) && m.tabs == tabs && m.removals == [id] && m.cache == cache
  {
    var reply := Obj(map["serializedDocument" := Str(doc)]);
    var s0 := Start(url, cache, tabs);
    var s1 := Step(s0, TabCreated(id));
    var s2 := Step(s1, TabUpdated(id, Some("complete"), Some("https://example.org/")));
    assert s2.phase == RequestingDom;
    assert Get(reply, "serializedDocument") == Str(doc);
    RunTriple(s0, TabCreated(id), TabUpdated(id, Some("complete"), Some("https://example.org/")), DomReply(reply));
  }

  lemma StoreAnswers(m: CaptureState, doc: string)
    requires m.phase == RemovingTab(Str(doc))
    ensures var f := Run(m, StoreTrace());
            && f.outcome == Fulfilled(Document(doc, m.url))
            && f.cache == m.cache[m.url := doc]
            && f.tabs == m.tabs && f.removals == m.removals
  {
    var m1 := Step(m, RemoveSettled(None));
    assert m1 == m.(phase := PuttingCache(Str(doc)));
    Background.PutStoresText(m.cache, m.url, doc);
    var m2 := Step(m1, PutSettled(None));
    assert m2.cache == m.cache[m.url := doc];
    RunPair(m, RemoveSettled(None), PutSettled(None));
  }

  /**
   * One cache miss that goes well, event by event: the tab opens, loads, replies with
   * text and is removed, and the write succeeds. The capture removes its one tab, stores
   * the text under the URL and answers with it; the next capture of the URL is a hit.
   * `NextCaptureHits` states the last part for every trace.
   */
  lemma MissThenHit(url: string, cache: Background.Store, tabs: set<TabId>, id: TabId, doc: string)
    requires url != "" && url !in cache && id !in tabs
    ensures var f := Run(Start(url, cache, tabs), FetchTrace(id, doc) + StoreTrace());
            && f.outcome == Fulfilled(Document(doc, url))
            && f.removals == [id]
            && f.tabs == tabs
            && f.cache == cache[url := doc]
            && Start(url, f.cache, f.tabs).outcome == Fulfilled(Document(doc, url))
  {
    var s := Start(url, cache, tabs);
    RunAppend(s, FetchTrace(id, doc), StoreTrace());
    MissFetches(url, cache, tabs, id, doc);
    StoreAnswers(Run(s, FetchTrace(id, doc)), doc);
  }

  /**
   * The cache agrees with the capture: while the capture runs its URL is not cached (it
   * runs only after a miss, and only its own write stores the URL), and once it has
   * answered, a cached copy of the URL is the text it answered with.
   */
  ghost predicate CacheAgrees(s: CaptureState) {
    && (!s.phase.Settled? ==> s.url !in s.cache)
    && (s.outcome.Fulfilled? && s.url in s.cache ==> s.cache[s.url] == s.outcome.value.markup)
  }

  lemma StartCacheAgrees(url: string, cache: Background.Store, tabs: set<TabId>)
    ensures CacheAgrees(Start(url, cache, tabs))
  {
  }

  /** Every event keeps the cache in agreement with the capture. */
  lemma StepKeepsCacheAgrees(s: CaptureState, e: Event)
    requires CacheAgrees(s)
    ensures CacheAgrees(Step(s, e))
  {
    if e.PutSettled? && e.putError.None? && s.phase.PuttingCache? {
      var doc := s.phase.serialized;
      if doc.Str? {
        Background.PutStoresText(s.cache, s.url, doc.s);
      } else {
        Background.PutWithoutTextIgnored(s.cache, s.url, doc);
      }
    }
  }

  lemma {:induction false} RunKeepsCacheAgrees(s: CaptureState, events: seq<Event>)
    requires CacheAgrees(s)
    ensures CacheAgrees(Run(s, events))
    decreases |events|
  {
    if events != [] {
      StepKeepsCacheAgrees(s, events[0]);
      RunKeepsCacheAgrees(Step(s, events[0]), events[1..]);
    }
  }

  /**
   * Whatever the browser does: once a capture of `url` has answered and the cache holds
   * `url`, the next capture of `url` is a hit that answers with the same document.
   */
  lemma NextCaptureHits(url: string, cache: Background.Store, tabs: set<TabId>, events: seq<Event>)
    ensures var f := Run(Start(url, cache, tabs), events);
            f.outcome.Fulfilled? && url in f.cache ==> Start(url, f.cache, f.tabs).outcome == f.outcome
  {
    var f := Run(Start(url, cache, tabs), events);
    StartCacheAgrees(url, cache, tabs);
    RunKeepsCacheAgrees(Start(url, cache, tabs), events);
    CaptureIsSafe(url, cache, tabs, events);
    if url == "" {
      EmptyUrlRejects(cache, tabs, events);
    }
  }

  /**
   * An object reply without a string `serializedDocument` is not cached (the background
   * page ignores a put without text), yet the capture answers with its string conversion.
   */
  lemma ReplyWithoutTextNotCached(s: CaptureState)
    requires Inv(s) && s.phase.PuttingCache? && !s.phase.serialized.Str?
    ensures var t := Step(s, PutSettled(None));
            t.cache == s.cache && t.outcome == Fulfilled(Document(ToText(s.phase.serialized), s.url))
  {
    Background.PutWithoutTextIgnored(s.cache, s.url, s.phase.serialized);
  }

  /**
   * One running `captureDom` call. The fields are its local variables and the browser
   * state it sees; each method is one of its callbacks.
   */
  class CaptureDom {
    const url: string
    var phase: Phase
    var tab: Option<TabId>
    var closed: bool
    var onUpdated: bool
    var onRemoved: bool
    var tabs: set<TabId>
    var removals: seq<TabId>
    var cache: Background.Store
    var outcome: Settlement<Document>

    ghost function State(): CaptureState
      reads this
    {
      CaptureState(url, phase, tab, closed, onUpdated, onRemoved, tabs, removals, cache, outcome)
    }

    ghost predicate Valid()
      reads this
    {
      Inv(State())
    }

    /** The call `captureDom(url)`, up to its first `await` on the browser. */
    constructor (url: string, cache: Background.Store, tabs: set<TabId>)
      ensures State() == Start(url, cache, tabs)
      ensures Valid()
    {
      this.url := url;
      this.tab := None;
      this.closed := false;
      this.onUpdated := false;
      this.onRemoved := false;
      this.tabs := tabs;
      this.removals := [];
      this.cache := cache;
      this.phase := OpeningTab;
      this.outcome := Pending;
      new;
      StartInv(url, cache, tabs);
      if url == "" {
        phase, outcome := Settled, Rejected(EmptyUrl);
      } else {
        var reply := Background.OnMessage(Background.GetCacheMessage(url), cache).0;
        if reply.CachedText? && reply.text.Some? {
          phase, outcome := Settled, Fulfilled(Document(reply.text.value, url));
        }
      }
    }

    /** `tabs.create` resolved with the new tab: subscribe both listeners and start the race. */
    method TabCreated(id: TabId)
      requires Valid()
      modifies this
      ensures State() == Step(old(State()), Event.TabCreated(id))
      ensures Valid()
    {
      StepKeepsInv(old(State()), Event.TabCreated(id));
      if phase.OpeningTab? {
        tab := Some(id);
        tabs := tabs + {id};
        onRemoved := true;
        onUpdated := true;
        phase := Loading;
      }
    }

    /** `tabs.create` rejected: `captureDom` rejects with the same error. */
    method TabCreateFailed(error: string)
      requires Valid()
      modifies this
      ensures State() == Step(old(State()), Event.TabCreateFailed(error))
      ensures Valid()
    {
      StepKeepsInv(old(State()), Event.TabCreateFailed(error));
      if phase.OpeningTab? {
        phase, outcome := Settled, Rejected(Thrown(error));
      }
    }

    /** `handler`, the tabs.onUpdated listener. */
    method OnUpdated(id: TabId, status: Option<string>, tabUrl: Option<string>)
      requires Valid()
      modifies this
      ensures State() == Step(old(State()), TabUpdated(id, status, tabUrl))
      ensures Valid()
    {
      StepKeepsInv(old(State()), TabUpdated(id, status, tabUrl));
      if !onUpdated {
        return;
      }
      if tab != Some(id) || status != Some("complete") || tabUrl == Some("about:blank") {
        return;
      }
      onUpdated := false;
      onRemoved := false;
      if phase.Loading? {
        phase := RequestingDom;
      }
    }

    /** The tab `closedId` went away; `closedHandler` hears of it while it is subscribed. */
    method OnRemoved(closedId: TabId)
      requires Valid()
      modifies this
      ensures State() == Step(old(State()), TabRemoved(closedId))
      ensures Valid()
    {
      StepKeepsInv(old(State()), TabRemoved(closedId));
      tabs := tabs - {closedId};
      if !onRemoved || tab != Some(closedId) {
        return;
      }
      closed := true;
      if phase.Loading? {
        RaceRejected(TabClosed);
      }
    }

    /** The `LOAD_TIMEOUT_MS` timer rejects the race. */
    method TimerFired()
      requires Valid()
      modifies this
      ensures State() == Step(old(State()), Event.TimerFired)
      ensures Valid()
    {
      StepKeepsInv(old(State()), Event.TimerFired);
      if (phase.Loading? || phase.RequestingDom?) && tab.Some? {
        RaceRejected(Timeout);
      }
    }

    /** `tabs.sendMessage(tabId, getDom)` resolved with `reply`. */
    method DomReplied(reply: JsValue)
      requires Valid()
      modifies this
      ensures State() == Step(old(State()), DomReply(reply))
      ensures Valid()
    {
      StepKeepsInv(old(State()), DomReply(reply));
      if phase.RequestingDom? && tab.Some? {
        if Truthy(reply) && TypeOf(reply) == "object" {
          var serialized := Get(reply, "serializedDocument");
          tabs := tabs - {tab.value};
          removals := removals + [tab.value];
          phase := RemovingTab(serialized);
        }
      }
    }

    /** `tabs.sendMessage(tabId, getDom)` rejected. */
    method DomRequestFailed(error: string)
      requires Valid()
      modifies this
      ensures State() == Step(old(State()), Event.DomRequestFailed(error))
      ensures Valid()
    {
      StepKeepsInv(old(State()), Event.DomRequestFailed(error));
      if phase.RequestingDom? && tab.Some? {
        RaceRejected(Thrown(error));
      }
    }

    /** The awaited `tabs.remove(tabId)` after a reply settled. */
    method RemoveSettled(error: Option<string>)
      requires Valid()
      modifies this
      ensures State() == Step(old(State()), Event.RemoveSettled(error))
      ensures Valid()
    {
      StepKeepsInv(old(State()), Event.RemoveSettled(error));
      if phase.RemovingTab? {
        if error.None? {
          phase := PuttingCache(phase.serialized);
        } else {
          phase, outcome := Settled, Rejected(Thrown(error.value));
        }
      }
    }

    /** The awaited `putCache(url, cachedDoc)` settled; then the document is parsed. */
    method PutSettled(error: Option<string>)
      requires Valid()
      modifies this
      ensures State() == Step(old(State()), Event.PutSettled(error))
      ensures Valid()
    {
      StepKeepsInv(old(State()), Event.PutSettled(error));
      if phase.PuttingCache? {
        if error.None? {
          StoreAndParse();
        } else {
          phase, outcome := Settled, Rejected(Thrown(error.value));
        }
      }
    }

    /** The cache write went through: the background page stores the text, and the document is parsed. */
    method StoreAndParse()
      requires phase.PuttingCache?
      modifies this
      ensures var doc := old(phase.serialized);
              && cache == Background.OnMessage(Background.PutCacheMessage(url, doc), old(cache)).1
              && outcome == Fulfilled(Document(ToText(doc), url)) && phase == Settled
      ensures tab == old(tab) && closed == old(closed) && onUpdated == old(onUpdated)
      ensures onRemoved == old(onRemoved) && tabs == old(tabs) && removals == old(removals)
    {
      var cachedDoc := phase.serialized;
      cache := Background.OnMessage(Background.PutCacheMessage(url, cachedDoc), cache).1;
      phase, outcome := Settled, Fulfilled(Document(ToText(cachedDoc), url));
    }

    /** The race's `.catch`: remove the tab unless `closed`, then rethrow `why`. */
    method RaceRejected(why: Failure)
      requires tab.Some?
      modifies this
      ensures State() == RejectRace(old(State()), why)
    {
      if !closed {
        tabs := tabs - {tab.value};
        removals := removals + [tab.value];
      }
      phase, outcome := Settled, Rejected(why);
    }
  }
}
