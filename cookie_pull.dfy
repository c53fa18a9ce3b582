/**
 * Reading the credential out of a running browser: `pullCookieFrom` (proxy.js:88-108). The
 * browser is an abstract collaborator whose observable effects are recorded.
 */
module CookiePull {
  import opened Wrappers
  import opened Credentials
  import Config

  /** What reading a page's cookies yields: the cookie list, or a read that throws. */
  datatype PageRead = Cookies(cookies: seq<Cookie>) | ReadFailed

  /** Handing this read to `storeCookies` succeeds. */
  predicate Stores(r: PageRead) {
    r.Cookies? && FindClearance(r.cookies).Some?
  }

  /** The index of the first page whose cookies store, if any. */
  function FirstStored(pages: seq<PageRead>): (k: Option<nat>)
    ensures k.Some? ==>
              k.value < |pages| && Stores(pages[k.value])
              && forall j :: 0 <= j < k.value ==> !Stores(pages[j])
    ensures k.None? <==> forall j :: 0 <= j < |pages| ==> !Stores(pages[j])
  {
    if pages == [] then None
    else if Stores(pages[0]) then Some(0)
    else match FirstStored(pages[1..])
      case None => None
      case Some(k) => Some(k + 1)
  }

  /** The outcome of a pull: a boolean result, or an exception out of the fallback page. */
  datatype Pull = Pulled(ok: bool) | Threw

  /**
   * The outcome a pull must have on a browser with the given connection state, open pages and
   * fallback page: false when disconnected, true at the first storing page, otherwise whatever
   * the fallback page gives (its navigation or read throwing propagates).
   */
  function ExpectedPull(connected: bool, pages: seq<PageRead>, fallback: PageRead): Pull {
    if !connected then Pulled(false)
    else if FirstStored(pages).Some? then Pulled(true)
    else if fallback.ReadFailed? then Threw
    else Pulled(Stores(fallback))
  }

  /** The cookies a pull hands to the store successfully: the first storing page's, else the fallback's. */
  function PulledCookies(pages: seq<PageRead>, fallback: PageRead): (r: Option<seq<Cookie>>)
    ensures r.Some? ==> FindClearance(r.value).Some?
    ensures r.None? <==> FirstStored(pages).None? && !Stores(fallback)
  {
    match FirstStored(pages)
    case Some(k) => Some(pages[k].cookies)
    case None => if Stores(fallback) then Some(fallback.cookies) else None
  }

  /** On a connected browser, a pull returns true exactly when it has cookies to store. */
  lemma PulledIffStored(pages: seq<PageRead>, fallback: PageRead)
    ensures ExpectedPull(true, pages, fallback) == Pulled(true) <==> PulledCookies(pages, fallback).Some?
  {
  }

  /** A pull succeeds exactly when the browser is connected and some page or the fallback stores. */
  lemma PullSucceedsIff(connected: bool, pages: seq<PageRead>, fallback: PageRead)
    ensures ExpectedPull(connected, pages, fallback) == Pulled(true) <==>
              connected && ((exists j :: 0 <= j < |pages| && Stores(pages[j])) || Stores(fallback))
  {
    if connected && (exists j :: 0 <= j < |pages| && Stores(pages[j])) {
      var j :| 0 <= j < |pages| && Stores(pages[j]);
      assert FirstStored(pages).Some?;
    }
  }

  /**
   * A browser as the core sees it: whether it is connected, what reading each open page's
   * cookies yields, and what a newly opened page yields once navigated. The ghost fields count
   * the calls made on it.
   */
  class Browser {
    var connected: bool
    var pages: seq<PageRead>
    var fallback: PageRead
    ghost var cookieReads: nat
    ghost var pagesOpened: nat
    ghost var pagesClosed: nat
    ghost var visited: seq<string>

    constructor (connected: bool, pages: seq<PageRead>, fallback: PageRead)
      ensures this.connected == connected && this.pages == pages && this.fallback == fallback
      ensures cookieReads == 0 && pagesOpened == 0 && pagesClosed == 0 && visited == []
    {
      this.connected := connected;
      this.pages := pages;
      this.fallback := fallback;
      cookieReads, pagesOpened, pagesClosed, visited := 0, 0, 0, [];
    }

    /** `pages[i].cookies(UPSTREAM)`. */
    method ReadCookies(i: nat) returns (r: PageRead)
      requires i < |pages|
      modifies this`cookieReads
      ensures r == pages[i] && cookieReads == old(cookieReads) + 1
    {
      r := pages[i];
      cookieReads := cookieReads + 1;
    }

    /** Open a new page, navigate it to `url` and read its cookies. */
    method OpenAndRead(url: string) returns (r: PageRead)
      modifies this`pagesOpened, this`visited
      ensures r == fallback && pagesOpened == old(pagesOpened) + 1 && visited == old(visited) + [url]
    {
      r := fallback;
      pagesOpened := pagesOpened + 1;
      visited := visited + [url];
    }

    /** `safeClose(page)`: close a page, ignoring errors. */
    method SafeClose()
      modifies this`pagesClosed
      ensures pagesClosed == old(pagesClosed) + 1
    {
      pagesClosed := pagesClosed + 1;
    }
  }

  /**
   * `pullCookieFrom(browser)` with the clock reading `now`: try the open pages in order,
   * skipping cookieReads that throw, and only when none stores open a fallback page on the upstream.
   */
  method PullCookieFrom(browser: Browser?, store: CredentialStore, now: int) returns (r: Pull)
    modifies browser, store
    ensures browser == null ==> r == Pulled(false)
    ensures browser != null ==>
              r == ExpectedPull(old(browser.connected), old(browser.pages), old(browser.fallback))
    ensures browser != null ==>
              browser.connected == old(browser.connected) && browser.pages == old(browser.pages)
              && browser.fallback == old(browser.fallback)
    // a successful pull stores the cookies of the page it stopped at
    ensures browser != null && r == Pulled(true) ==>
              && PulledCookies(old(browser.pages), old(browser.fallback)).Some?
              && store.cfCookie == Header(PulledCookies(old(browser.pages), old(browser.fallback)).value)
              && store.cfUpdatedAt == now
    // an unsuccessful pull stores nothing
    ensures r != Pulled(true) ==>
              store.cfCookie == old(store.cfCookie) && store.cfUpdatedAt == old(store.cfUpdatedAt)
    // absent or disconnected: nothing is read and nothing is stored
    ensures browser == null || !old(browser.connected) ==>
              (browser != null ==> unchanged(browser))
              && store.cfCookie == old(store.cfCookie) && store.cfUpdatedAt == old(store.cfUpdatedAt)
    // some open page stores: pages up to it are read, no page is opened
    ensures browser != null && old(browser.connected) && FirstStored(old(browser.pages)).Some? ==>
              var k := FirstStored(old(browser.pages)).value;
              && browser.cookieReads == old(browser.cookieReads) + k + 1
              && browser.pagesOpened == old(browser.pagesOpened) && browser.pagesClosed == old(browser.pagesClosed)
              && browser.visited == old(browser.visited)
              && store.cfCookie == Header(old(browser.pages)[k].cookies) && store.cfUpdatedAt == now
    // no open page stores: all are read, then one fallback page is opened and closed
    ensures browser != null && old(browser.connected) && FirstStored(old(browser.pages)).None? ==>
              && browser.cookieReads == old(browser.cookieReads) + |old(browser.pages)|
              && browser.pagesOpened == old(browser.pagesOpened) + 1 && browser.pagesClosed == old(browser.pagesClosed) + 1
              && browser.visited == old(browser.visited) + [Config.Upstream]
              && (if Stores(old(browser.fallback))
                  then store.cfCookie == Header(old(browser.fallback).cookies) && store.cfUpdatedAt == now
                  else store.cfCookie == old(store.cfCookie) && store.cfUpdatedAt == old(store.cfUpdatedAt))
  {
    if browser == null || !browser.connected {
      return Pulled(false);
    }
    var pages := browser.pages;
    var i := 0;
    while i < |pages|
      invariant 0 <= i <= |pages|
      invariant browser.pages == pages && browser.connected == old(browser.connected)
      invariant browser.fallback == old(browser.fallback)
      invariant forall j :: 0 <= j < i ==> !Stores(pages[j])
      invariant browser.cookieReads == old(browser.cookieReads) + i
      invariant browser.pagesOpened == old(browser.pagesOpened) && browser.pagesClosed == old(browser.pagesClosed)
      invariant browser.visited == old(browser.visited)
      invariant store.cfCookie == old(store.cfCookie) && store.cfUpdatedAt == old(store.cfUpdatedAt)
    {
      var read := browser.ReadCookies(i);
      if read.Cookies? {
        var ok := store.Store(read.cookies, now);
        if ok {
          return Pulled(true);
        }
      }
      i := i + 1;
    }
    var read := browser.OpenAndRead(Config.Upstream);
    if read.ReadFailed? {
      browser.SafeClose();
      return Threw;
    }
    var ok := store.Store(read.cookies, now);
    browser.SafeClose();
    return Pulled(ok);
  }
}
