/** Names the browser hands out and both the panel and the background page use. */
module Browser {
  /** A tab id, as `browser.tabs` reports it. */
  type TabId = int
}
