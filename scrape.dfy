/**
 * `scrapeUrl(url, callback)`: capture the page through the queue, run the caller's
 * callback on the document and wrap its value with the URL and the fetch time.
 */
module Scrape {
  import opened Promises
  import Capture
  import Browser

  /** `ZombieScrapingResult<T>`: `fetchedAt` is a UNIX time in seconds. */
  datatype ScrapingResult<T> = ScrapingResult(url: string, fetchedAt: int, result: T)

  /** `Math.trunc(ms / 1000)`: whole seconds, rounded toward zero. */
  function TruncSeconds(ms: int): (s: int)
    ensures ms >= 0 ==> 0 <= s && s * 1000 <= ms < (s + 1) * 1000
    ensures ms < 0 ==> s <= 0 && (s - 1) * 1000 < ms <= s * 1000
  {
    if ms >= 0 then ms / 1000 else -((-ms) / 1000)
  }

  /**
   * `scrapeUrl`, once the queued capture has settled with `captured` and `Date.now()`
   * reads `nowMs`: a rejected capture rejects the scrape with the same reason.
   */
  function ScrapeUrl<T>(url: string, captured: Settlement<Capture.Document>, nowMs: int,
                        callback: Capture.Document -> T): (r: Settlement<ScrapingResult<T>>)
    ensures r.Pending? <==> captured.Pending?
    ensures r.Rejected? <==> captured.Rejected?
    ensures captured.Rejected? ==> r.reason == captured.reason
    ensures r.Fulfilled? ==> r.value.url == url && r.value.result == callback(captured.value)
  {
    match captured
    case Pending => Pending
    case Rejected(why) => Rejected(why)
    case Fulfilled(doc) => Fulfilled(ScrapingResult(url, TruncSeconds(nowMs), callback(doc)))
  }

  /**
   * Scraping what a capture of `url` produced: the envelope carries `url` unchanged, the
   * fetch second of `nowMs`, and the callback's value on a document based at `url`.
   */
  lemma ScrapeOfCapture<T>(url: string, cache: map<string, string>, tabs: set<Browser.TabId>,
                           events: seq<Capture.Event>, nowMs: int, callback: Capture.Document -> T)
    requires nowMs >= 0
    ensures var f := Capture.Run(Capture.Start(url, cache, tabs), events);
            var r := ScrapeUrl(url, f.outcome, nowMs, callback);
            r.Fulfilled? ==>
              && r.value.url == url
              && r.value.fetchedAt * 1000 <= nowMs < (r.value.fetchedAt + 1) * 1000
              && exists doc: Capture.Document :: doc.baseHref == url && r.value.result == callback(doc)
  {
    var f := Capture.Run(Capture.Start(url, cache, tabs), events);
    Capture.CaptureIsSafe(url, cache, tabs, events);
    if f.outcome.Fulfilled? {
      var doc := f.outcome.value;
      assert doc.baseHref == url && ScrapeUrl(url, f.outcome, nowMs, callback).value.result == callback(doc);
    }
  }
}
