# Zombie Navigator capture pipeline, in Dafny

This project models the scrape pipeline of the Zombie Navigator browser extension and proves
properties of the model.

- The scripting panel (`src/panel-lib.ts`) captures web pages through a queue.
  - At most three captures run at a time. A capture that misses the cache opens a background tab of its own.
  - Each capture checks a URL-keyed cache, kept by the background page, before it opens a tab.
  - On a miss it opens the tab and waits for whichever comes first: the page loading, the tab being closed from outside, or a 60-second timer.
  - It then asks the page for its serialized DOM, closes the tab, and writes the text to the cache.
  - It answers with the parsed document, with `<base href=url>` appended.
- The background page (`src/background.ts`) does three things:
  - it answers the panel's `cache_get`, `cache_put` and `cache_clear` messages;
  - it names new sessions (contextual identities) after their context number;
  - it tears sessions down.

Modules, one file each:

- **`Optional`** (`optional.dfy`): `Option`.
- **`Browser`** (`browser.dfy`): the tab id type shared by the panel and the background page.
- **`Decimal`** (`decimal.dfy`): the number/text conversions the source relies on.
  - JavaScript's `parseInt(s, 10)`, over the exact integers.
  - `Number.prototype.toString(10)`.
  - `String.prototype.padStart`.
- **`Js`** (`js.dfy`): the untyped values that cross message channels.
  - Truthiness, `typeof` and property lookup.
  - `String(v)`.
- **`Promises`** (`promises.dfy`): the state of a promise, the settle-once rule, and the reasons a capture rejects with.
- **`Background`** (`background.dfy`): the `runtime.onMessage` listener.
  - `Parse` is the guard and the `switch`; `Handle` runs a command against the store.
  - The store is a `map` from URL to text.
  - It also builds the three messages the panel sends.
- **`Sessions`** (`sessions.dfy`): `createSession` and `destroySession`.
  - The class `SessionHost` holds the identities, the `sessions` table and the open tabs.
  - It also keeps a log of the browser and database calls, in order.
  - `DestroySession` mirrors the `try`/`finally` of the source statement by statement.
- **`Capture`** (`capture.dfy`): `captureDom` as a state machine.
  - `Start` is the synchronous part. `Step` is the reaction to one browser event: a tab created, updated or removed; the timer; the page's reply or a failed request; the end of `tabs.remove` or of the cache write.
  - `Inv` is what every reachable state satisfies.
  - The class `CaptureDom` keeps the same state in fields and has one method per callback of the source. Each event method is proved to perform exactly `Step`.
- **`CaptureQueue`** (`queue.dfy`): the static scheduler of `CaptureDomRequest`.
  - `AdmitWaiting` and `Replay` specify it on values.
  - The class `RequestQueue` keeps `#openTabs` and `#waitingQueue` as fields.
  - Its `RunQueue` is the source's `while` loop, proved against `AdmitWaiting`.
  - The class `CaptureDomRequest` holds the settle-once result of one request.
- **`Scrape`** (`scrape.dfy`): the `scrapeUrl` envelope and its truncated time stamp.

Points where the code behaves differently from what one might expect:

- An empty URL is rejected inside `captureDom` (src/panel-lib.ts:75-77). The request has already been admitted by the queue, so it takes a slot.
- The page's reply is not checked beyond "truthy and an object" (src/panel-lib.ts:108-112).
  - A reply that is not an object is only logged. The capture goes on waiting until the timer rejects it and closes the tab.
  - An object without a string `serializedDocument` is accepted. The background page ignores the cache write because `doc` is not a string, and the document's markup is `String(serializedDocument)`, "undefined" when it is missing. `Capture.ReplyWithoutTextNotCached` states this.
- The losers of the race are not cleaned up.
  - The timer is never cleared.
  - After a timeout while the page loads, or a close from outside, both tab listeners stay subscribed.
  - In `Step`, `handler` can therefore still run, and `closed` can still be set, after the capture has settled. Neither changes the outcome (`Capture.SettledIsFinal`).
- The timer also fires while the DOM request is outstanding, not only while the page loads. The race is still pending then, so the capture rejects with "timeout" and closes the tab.
- A close of the tab from outside after the load gate passed is not observed: the `tabs.onRemoved` listener is gone by then. The later `tabs.remove` on the failure paths targets a closed tab, and its error is only logged.

## Model

| member | source | states |
|---|---|---|
| Decimal.NatToString | src/background.ts:93 | `n.toString(10)`: at least one character, all digits. The result is "0" exactly for 0, and a single character exactly for n < 10. No leading zero except in "0". |
| Decimal.NatToStringRoundTrip | src/background.ts:93 | Reading back the digits `NatToString` writes gives the number again. |
| Decimal.PaddedDigits | src/background.ts:93 | `n.toString(10).padStart(4, '0')` for n >= 0 is all digits, reads back as n, and is four characters or the length of n's digits, whichever is more. |
| Decimal.PadStart | src/background.ts:93 | `padStart`, characterized by `Decimal.PadStartPads`. |
| Decimal.PadStartPads | src/background.ts:93 | `padStart` keeps the string as the tail, fills only in front of it, and makes the result `width` characters or the string's length, whichever is more. |
| Decimal.ParseInt | src/background.ts:91 | `parseInt(s, 10)`, characterized by `DigitPrefixIsLongest`, `ParseIntOfDigits`, `ParseIntWithoutMinus` and `ParseIntNeedsDigit`. |
| Decimal.DigitPrefixIsLongest | src/background.ts:91 | The digit run `parseInt` reads consists of digits and stops at the first character that is not a digit. |
| Decimal.ParseIntOfDigits | src/background.ts:91 | `parseInt` of a non-empty digit string is its decimal value. |
| Decimal.ParseIntWithoutMinus | src/background.ts:91 | Without a '-', `parseInt` gives NaN or a non-negative number. |
| Decimal.ParseIntNeedsDigit | src/background.ts:91 | `parseInt` reads a number only when the text holds a digit; otherwise it gives NaN. |
| Background.Parse | src/background.ts:47-52 | Anything but an object is ignored. So is an object lacking `cmd` or `url`, or whose `url` is not a string. |
| Background.ParseAcceptsExactly | src/background.ts:48-80 | The listener acts on exactly three kinds of message, each iff-characterized by the message's fields: `cache_clear` with a string `url`; `cache_get` with a string `url`; `cache_put` with a string `url` and a string `doc`. |
| Background.Handle | src/background.ts:53-79 | `cache_get` answers the stored text or null (`None`) and leaves the store alone. `cache_put` stores `doc` under `url` and leaves other URLs unchanged. `cache_clear` empties the store. |
| Background.OnMessage | src/background.ts:47-81 | A message the listener does not act on gets `undefined` and changes nothing; every message it acts on gets an answer. |
| Background.PanelMessagesParse | src/panel-lib.ts:37-58 | The panel's `getCache`, `putCache` and `clearCache` messages are read as the commands they stand for. A `putCache` whose data is not a string is ignored. |
| Background.PutStoresText | src/background.ts:62-74 | A put of a text stores exactly that text under the URL and nothing else. |
| Background.GetAfterPut | src/background.ts:53-74 | After a put, a get of the same URL answers with exactly the text stored. |
| Background.LastPutWins | src/background.ts:62-74 | Of two puts to one URL, the later one wins. |
| Background.PutWithoutTextIgnored | src/background.ts:63-64 | A put without a string `doc` gets no reply and writes nothing. |
| Background.GetAfterClear | src/background.ts:77-79 | After `cache_clear`, every get answers null. |
| Sessions.LastDash | src/background.ts:91 | The split point of `split('-')`: an index within the id, or -1. |
| Sessions.LastDashFindsLast | src/background.ts:91 | `LastDash` is a '-', no '-' follows it, and it is -1 exactly when the id has no '-'. |
| Sessions.LastSegment | src/background.ts:91 | `split('-').slice(-1)[0]`, characterized by `Sessions.LastSegmentIsTail`. |
| Sessions.LastSegmentIsTail | src/background.ts:91 | The last segment is a tail of the id that holds no '-', and is preceded by a '-' whenever it is not the whole id. |
| Sessions.SessionName | src/background.ts:91-93 | The name `createSession` gives an identity, characterized by `SessionNameCarriesNumber`, `SessionNameWithoutNumber` and `SessionNameExample`. |
| Sessions.SessionNameCarriesNumber | src/background.ts:91-93 | When the last segment parses as n: n is non-negative, and the name is "Zombie #" followed by n in at least four digits, zero-padded. |
| Sessions.SessionNameWithoutNumber | src/background.ts:91-93 | A last segment that does not parse gives "Zombie #0NaN". |
| Sessions.SessionNameExample | src/background.ts:91-93 | "firefox-container-7" is named "Zombie #0007". |
| Sessions.CreateEffects | src/background.ts:83-108 | The calls `createSession` makes, in order; characterized by `CreateRecordsOnlyPositiveTab`, and proved to be the log of `SessionHost.CreateSession`. |
| Sessions.CreateRecordsOnlyPositiveTab | src/background.ts:99-108 | The session record is written and the controller tab pinned iff its id is positive; the rename is the second call. |
| Sessions.DestroyEffects | src/background.ts:111-119 | The calls `destroySession` makes, in order, for each combination of throwing calls; characterized by `TeardownOrder`. |
| Sessions.DestroyError | src/background.ts:111-119 | The error `destroySession` rejects with; `SessionHost.DestroySession` is proved to return it. |
| Sessions.TeardownOrder | src/background.ts:111-120 | The record is always deleted, whatever the tab cleanup does. The identity is removed last, right after the record, and only when deleting the record succeeded. The tab removal, when reached, comes first. |
| Sessions.SessionHost.NameIdentity | src/background.ts:84-94 | The identity is created under the placeholder name, then renamed to the given name; nothing else changes. |
| Sessions.SessionHost.OpenController | src/background.ts:95-108 | The panel window opens. For a positive controller id, the record is added and the tab pinned; otherwise the `sessions` table is unchanged. |
| Sessions.SessionHost.CreateNamedSession | src/background.ts:83-109 | The new identity under the given name, the `sessions` table, the tabs and the calls made, in order, once the name is fixed. |
| Sessions.SessionHost.CreateSession | src/background.ts:83-109 | The new identity named `SessionName(cookieStoreId)`, the `sessions` table, the tabs and the calls made, in order, after `createSession`. |
| Sessions.SessionHost.DestroySession | src/background.ts:111-120 | After `destroySession`, for any combination of throwing calls: which tabs, record and identity are gone; the calls made, in order; and the error it rejects with (a throw in `finally` replaces one from `try`). |
| Capture.Start | src/panel-lib.ts:74-81 | An empty URL rejects with "Empty URL" before any lookup. A hit answers the cached text with base `url` and opens no tab. A miss goes on to open a tab. |
| Capture.Step | src/panel-lib.ts:84-145 | The URL never changes, and a settled capture keeps its outcome, its tab removals and its cache. |
| Capture.LoadComplete | src/panel-lib.ts:96-98 | The load gate of `handler`; `Capture.LoadGate` states that a load moves on exactly when it holds. |
| Capture.RejectRace | src/panel-lib.ts:128-134 | The race's `.catch`; `Capture.RaceFailureRemovesTab` and `Capture.OutsideCloseRejects` state what it does after a timeout, a failed request and a close from outside. |
| Capture.Run | src/panel-lib.ts:74-146 | A trace of events never changes the URL of the capture. |
| Capture.StepKeepsInv | src/panel-lib.ts:84-145 | Every event preserves the invariant: one outcome, settled exactly when terminal; listeners added and removed together; at most one `tabs.remove`, of this capture's tab; none when rejecting "Tab closed"; no tab of its own left open once settled. |
| Capture.RunKeepsInv | src/panel-lib.ts:84-145 | Any trace of events preserves the invariant. |
| Capture.SettledIsFinal | src/panel-lib.ts:93-134 | Once settled, no later event changes the outcome, the removals or the cache. |
| Capture.CaptureIsSafe | src/panel-lib.ts:74-146 | For every URL, cache and trace of browser events: `tabs.remove` is called at most once, and never when the capture rejects with "Tab closed". The capture's tab is closed once it has settled. A document answer has base `url`. |
| Capture.EmptyUrlRejects | src/panel-lib.ts:75-77 | An empty URL rejects with "Empty URL" and never opens, removes or caches anything. |
| Capture.CacheHitOpensNoTab | src/panel-lib.ts:80-81 | A cache hit answers with the cached text and base `url`, and opens no tab whatever happens later. |
| Capture.LoadGate | src/panel-lib.ts:95-100 | While loading, an update moves on iff it is about this tab, the status is "complete" and the URL is not about:blank. Moving on unsubscribes both listeners; any other update changes nothing. |
| Capture.OutsideCloseRejects | src/panel-lib.ts:117-121 | A close from outside while loading sets `closed` and rejects "Tab closed" without calling `tabs.remove`. |
| Capture.RaceFailureRemovesTab | src/panel-lib.ts:127-134 | The timeout, or a failed DOM request, removes the tab once and rejects with "timeout" or with that error. |
| Capture.NonObjectReplyIgnored | src/panel-lib.ts:107-112 | A reply that is not an object changes nothing; the timer then rejects with "timeout". |
| Capture.MissFetches | src/panel-lib.ts:84-136 | On a miss the tab opens, loads and replies, and is removed; the tab set is back to what it was. |
| Capture.StoreAnswers | src/panel-lib.ts:136-145 | After the removal, the text is written under the URL and the capture answers with it, based at `url`. |
| Capture.MissThenHit | src/panel-lib.ts:80-145 | For the trace in which the tab opens, loads, replies with text and is removed, and the write succeeds: the one tab is removed, the text is cached under `url` and answered, and the next capture of `url` is a hit with it. |
| Capture.StartCacheAgrees | src/panel-lib.ts:74-81 | A capture starts with the cache agreeing with it: it runs only after a miss, and a hit answers the cached text. |
| Capture.StepKeepsCacheAgrees | src/panel-lib.ts:136-145 | Every event keeps the cache in agreement with the capture. While it runs its URL is not cached; once it has answered, a cached copy of the URL is the text it answered with. The write of a non-text reply stores nothing. |
| Capture.RunKeepsCacheAgrees | src/panel-lib.ts:74-146 | Any trace keeps the cache in agreement with the capture. |
| Capture.NextCaptureHits | src/panel-lib.ts:80-145 | For every trace of this capture alone: once a capture of `url` has answered and the cache holds `url`, the next capture of `url` is a hit that answers with the same document. |
| Capture.ReplyWithoutTextNotCached | src/panel-lib.ts:137-141 | An object reply without a string `serializedDocument` is not cached, yet the capture answers with its string conversion. |
| Capture.CaptureDom.constructor | src/panel-lib.ts:74-81 | The capture's state after the call is `Start`'s. |
| Capture.CaptureDom.TabCreated | src/panel-lib.ts:84-126 | Performs `Step` for the new tab: both listeners subscribed, the race started. |
| Capture.CaptureDom.TabCreateFailed | src/panel-lib.ts:84-89 | Performs `Step` for a failed `tabs.create`: the capture rejects with that error. |
| Capture.CaptureDom.OnUpdated | src/panel-lib.ts:95-116 | `handler` performs `Step` for a tab update. |
| Capture.CaptureDom.OnRemoved | src/panel-lib.ts:117-121 | `closedHandler` performs `Step` for a tab removal. |
| Capture.CaptureDom.TimerFired | src/panel-lib.ts:127-134 | Performs `Step` for the timer. |
| Capture.CaptureDom.DomReplied | src/panel-lib.ts:107-112 | Performs `Step` for the page's reply. |
| Capture.CaptureDom.DomRequestFailed | src/panel-lib.ts:113-115 | Performs `Step` for a failed DOM request. |
| Capture.CaptureDom.RemoveSettled | src/panel-lib.ts:136 | Performs `Step` for the awaited `tabs.remove`. |
| Capture.CaptureDom.PutSettled | src/panel-lib.ts:137-145 | Performs `Step` for the awaited cache write, then builds the document. |
| Capture.CaptureDom.StoreAndParse | src/panel-lib.ts:138-145 | The background page stores the serialized text under `url`; the capture answers with it, based at `url`; the tab and listener state are untouched. |
| Capture.CaptureDom.RaceRejected | src/panel-lib.ts:128-134 | The race's `.catch`: the tab is removed unless `closed`, and the capture rejects with the race's reason. |
| CaptureQueue.AdmitWaiting | src/panel-lib.ts:180-186 | `#runQueue` starts exactly the first min(3 - openTabs, waiting) requests, in queue order. It adds that many to the count and leaves the rest waiting. |
| CaptureQueue.AdmitWaitingExits | src/panel-lib.ts:150-186 | After `#runQueue`, the count is at most 3, and either it is 3 or nothing waits; no request is lost or reordered. |
| CaptureQueue.Apply | src/panel-lib.ts:163-177 | One scheduler event: a new request or a finished capture, each followed by a run of the queue; `ApplyKeepsAdmissible` and `FinishAdmitsHead` state its effect. |
| CaptureQueue.Replay | src/panel-lib.ts:158-186 | A trace of scheduler events; `ReplayKeepsAdmissible` and `FirstInFirstOut` state its effect. |
| CaptureQueue.ApplyKeepsAdmissible | src/panel-lib.ts:163-177 | A new request or a completion keeps the cap and the no-idle-slot rule, and appends only the new request to the arrival order. |
| CaptureQueue.ReplayKeepsAdmissible | src/panel-lib.ts:158-186 | Over any trace, the cap holds, no slot idles while a request waits, and started-then-waiting is the submission order. |
| CaptureQueue.FirstInFirstOut | src/panel-lib.ts:163-186 | From an idle scheduler, requests start in exactly the order they were submitted. |
| CaptureQueue.FinishAdmitsHead | src/panel-lib.ts:173-177 | A completion frees one slot, and the head of the queue, if any, takes it at once. |
| CaptureQueue.BurstAdmission | src/panel-lib.ts:150-186 | A burst of requests against an idle scheduler starts the first three and queues the rest in order. |
| CaptureQueue.CaptureDomRequest.constructor | src/panel-lib.ts:158-161 | A new request for `url`, its promise pending. |
| CaptureQueue.CaptureDomRequest.Resolve | src/promise.ts:24-26 | Resolving settles the promise with the document unless it has already settled. |
| CaptureQueue.CaptureDomRequest.Reject | src/promise.ts:28-30 | Rejecting settles the promise with the reason unless it has already settled. |
| CaptureQueue.RequestQueue.constructor | src/panel-lib.ts:150-152 | No tab open, nothing waiting. |
| CaptureQueue.RequestQueue.CaptureDomQueued | src/panel-lib.ts:158-192 | A fresh pending request for `url` joins the tail and the queue runs (`Apply` of `Submit`). Every running request keeps running, and the only new ones are requests that were waiting, or the new one. The cap and FIFO invariant is kept. |
| CaptureQueue.RequestQueue.RunQueue | src/panel-lib.ts:180-186 | The `while` loop ends in the state `AdmitWaiting` specifies, with the cap holding and no idle slot while a request waits. |
| CaptureQueue.RequestQueue.RunHead | src/panel-lib.ts:182-184 | One turn of the loop: the head leaves the queue, is appended to the started requests and takes a slot; the bookkeeping invariant is kept. |
| CaptureQueue.RequestQueue.Run | src/panel-lib.ts:167-168 | `#run` takes one slot and marks the request running. The capture itself is not linked: its outcome is the parameter of `Complete`. |
| CaptureQueue.RequestQueue.Complete | src/panel-lib.ts:169-177 | The request's promise settles with the capture's outcome, the count drops by one and the queue runs (`Apply` of `Finish`). Every other running request keeps running, and the only new ones are requests that were waiting. The invariant is kept. |
| Scrape.TruncSeconds | src/panel-lib.ts:199 | `Math.trunc(ms / 1000)`: the whole seconds of `ms`, rounded toward zero. |
| Scrape.ScrapeUrl | src/panel-lib.ts:194-203 | `scrapeUrl` settles with its capture. A rejection keeps the reason; an answer carries the input `url` and the callback's value on the captured document. |
| Scrape.ScrapeOfCapture | src/panel-lib.ts:194-203 | For a capture of `url`, the envelope carries `url` and the second of `Date.now()`. The callback saw a document based at `url`. |

## Left out

- The UI widgets, `addHorizontalLine` and `downloadString` (src/panel-lib.ts:60-72, 205-374) are not modelled: they are DOM and Blob I/O.
- The `ready` bootstrap and the page title (src/panel-lib.ts:24-35) are not modelled. The window and cookie store of new tabs are not tracked.
- `DOMParser` is not modelled: a document is its markup and its `<base href>`.
- The content script that serializes the page is not modelled. It is reached only through its reply value.
- Debugging hooks and the dom dump logger (src/background.ts:10-45) are not modelled.
- The `tabs.onRemoved` listener that destroys a session when its controller tab closes (src/background.ts:122-128) is not modelled. It is a database query followed by `destroySession`, which is modelled.
- The toolbar-button handler (src/background.ts:130-134) is not modelled.
- The Cache API is an in-memory map from URL to text. Request matching, response headers, persistence and the boolean `caches.delete` returns are not modelled.
- Real time, `Math.random` request ids and the WebExtension event plumbing are replaced by events, which are the inputs of `Capture.Step`.
  - The 60000 ms delay is the `TimerFired` event.
  - Microtask ordering between callbacks is not modelled. Each callback runs to completion.
- Capture.Start: a failing `getCache` round trip is not modelled; the lookup always answers.
- Capture.Step: `tab.id ?? 0` is not modelled; `tabs.create` is taken to return a tab with an id.
- Capture.Step: a failed `tabs.remove` is taken to leave the tab closed. On the failure paths the removal is fire-and-forget and its error is only logged.
- Capture.Step: the model follows one capture at a time. Other captures writing the shared cache in between are not interleaved.
- Sessions.SessionHost.CreateSession: failures of the browser and database calls are not modelled. The source does not catch them; the toolbar handler only logs them.
- Sessions.SessionHost.DestroySession: a partial tab removal is not modelled. A failed `tabs.remove` leaves every tab open.
- Background.GetAfterPut: holds for well-formed text only. JavaScript strings are UTF-16 code units and may hold a lone surrogate, which a Dafny `string` cannot; `new Response(data)` (src/background.ts:68) turns a lone surrogate into U+FFFD.
- Scrape.ScrapeUrl: a callback that throws is not modelled. The callback is a total function.
- Scrape.TruncSeconds: `Date.now()` is taken to be a whole number of milliseconds. `/` is exact division followed by truncation, with no floating-point rounding.
- Numbers are exact integers. In the source, `parseInt` of a digit run beyond 2^53 loses precision, from 1e21 upward `toString(10)` writes exponent notation ("Zombie #1e+21"), and beyond about 1.8e308 `parseInt` yields Infinity.
- Inside `#runQueue`, `shift()` on a non-empty queue never yields `undefined`. The `if (req == null) break;` guard can never fire and is not modelled.
