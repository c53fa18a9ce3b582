/**
 * Manual polling: `startManualPolling` (proxy.js:154-168) as a sequential event system. The
 * timer runtime is part of the state: the set of intervals that are registered and not yet
 * cleared, and the number of armed three-minute deadlines. Events are Start, Tick (one firing
 * of the live interval) and Deadline (one armed deadline firing).
 */
module ManualPolling {
  import opened Wrappers
  import opened Credentials
  import opened CookiePull
  import Config

  class ManualPoller {
    /** The global `manualPoll`: the handle of the last interval installed, if any. */
    var manualPoll: Option<nat>
    /** Interval handles that are registered and not yet cleared. */
    var live: set<nat>
    /** The handle the next `setInterval` returns. */
    var nextHandle: nat
    /** Deadlines armed by `setTimeout` that have not fired yet. */
    var pendingDeadlines: nat
    /** The browser the live interval's callback polls. */
    var target: Browser?

    /**
     * Only the interval in `manualPoll` can be live, and a live interval always has a deadline
     * still to fire, so polling never outlives every deadline.
     */
    ghost predicate Valid()
      reads this
    {
      && (manualPoll.Some? ==> manualPoll.value < nextHandle)
      && (forall h :: h in live ==> manualPoll == Some(h))
      && (live != {} ==> pendingDeadlines > 0)
    }

    constructor ()
      ensures Valid() && manualPoll == None && live == {} && pendingDeadlines == 0 && target == null
    {
      manualPoll := None;
      live := {};
      nextHandle := 0;
      pendingDeadlines := 0;
      target := null;
    }

    /**
     * `startManualPolling(browser)`: clear the interval in `manualPoll`, install a new one that
     * polls `browser`, and arm one more deadline (earlier deadlines stay armed).
     */
    method Start(browser: Browser?)
      requires Valid()
      modifies this
      ensures Valid()
      ensures manualPoll == Some(old(nextHandle)) && live == {old(nextHandle)}
      ensures old(nextHandle) !in old(live) && nextHandle == old(nextHandle) + 1
      ensures pendingDeadlines == old(pendingDeadlines) + 1 && target == browser
    {
      if manualPoll.Some? {
        live := live - {manualPoll.value};
      }
      var h := nextHandle;
      nextHandle := nextHandle + 1;
      live := live + {h};
      manualPoll := Some(h);
      target := browser;
      pendingDeadlines := pendingDeadlines + 1;
    }

    /**
     * One firing of the live interval: pull from the polled browser (an exception counts as
     * no success); on success clear the interval in `manualPoll`, which stays set.
     */
    method Tick(store: CredentialStore, now: int) returns (captured: bool)
      requires Valid() && live != {}
      modifies this, target, store
      ensures Valid()
      ensures captured <==>
                old(target) != null
                && ExpectedPull(old(target.connected), old(target.pages), old(target.fallback)) == Pulled(true)
      ensures captured ==> live == {}
      ensures !captured ==> live == old(live)
      // a capture stores the pulled cookies: a non-empty header, stamped with the clock reading
      ensures captured ==>
                && PulledCookies(old(target.pages), old(target.fallback)).Some?
                && store.cfCookie == Header(PulledCookies(old(target.pages), old(target.fallback)).value)
                && |store.cfCookie| > 0 && store.cfUpdatedAt == now
      ensures !captured ==> store.cfCookie == old(store.cfCookie) && store.cfUpdatedAt == old(store.cfUpdatedAt)
      ensures manualPoll == old(manualPoll) && target == old(target)
      // the polled browser's pages are only read; at most one fallback page visits the upstream
      ensures target != null ==>
                && target.connected == old(target.connected) && target.pages == old(target.pages)
                && target.fallback == old(target.fallback)
                && target.cookieReads <= old(target.cookieReads) + |old(target.pages)|
                && (target.visited == old(target.visited) || target.visited == old(target.visited) + [Config.Upstream])
                && target.pagesOpened - old(target.pagesOpened) == target.pagesClosed - old(target.pagesClosed) <= 1
      ensures nextHandle == old(nextHandle) && pendingDeadlines == old(pendingDeadlines)
    {
      var r := PullCookieFrom(target, store, now);
      captured := r == Pulled(true);
      if captured {
        StoredHeaderHasClearance(PulledCookies(old(target.pages), old(target.fallback)).value);
      }
      if captured && manualPoll.Some? {
        live := live - {manualPoll.value};
      }
    }

    /**
     * One armed deadline fires: it clears whatever interval `manualPoll` holds at that moment,
     * whichever start armed it, and leaves `manualPoll` set.
     */
    method Deadline()
      requires Valid() && pendingDeadlines > 0
      modifies this
      ensures Valid() && live == {}
      ensures pendingDeadlines == old(pendingDeadlines) - 1
      ensures manualPoll == old(manualPoll) && nextHandle == old(nextHandle) && target == old(target)
    {
      pendingDeadlines := pendingDeadlines - 1;
      if manualPoll.Some? {
        live := live - {manualPoll.value};
      }
    }
  }

  /** Triggering manual refresh twice leaves exactly one live interval, the second one. */
  method RestartKeepsOneSchedule(browser: Browser?)
    returns (liveAfter: set<nat>, first: Option<nat>, current: Option<nat>)
    ensures first.Some? && current.Some? && current != first
    ensures liveAfter == {current.value} && first.value !in liveAfter
  {
    var poller := new ManualPoller();
    poller.Start(browser);
    first := poller.manualPoll;
    poller.Start(browser);
    liveAfter, current := poller.live, poller.manualPoll;
  }

  /**
   * The deadline armed by the first of two starts ends the schedule of the second one,
   * although the second start's own three minutes have not elapsed.
   */
  method StaleDeadlineEndsRestart(browser: Browser?) returns (liveAfter: set<nat>, stillArmed: nat)
    ensures liveAfter == {} && stillArmed == 1
  {
    var poller := new ManualPoller();
    poller.Start(browser);
    poller.Start(browser);
    poller.Deadline();
    liveAfter, stillArmed := poller.live, poller.pendingDeadlines;
  }

  /**
   * A tick whose browser already holds the clearance cookie captures it, clears the interval
   * and leaves the handle in `manualPoll`.
   */
  method CaptureKeepsHandle(value: string, now: int)
    returns (captured: bool, liveAfter: set<nat>, handle: Option<nat>)
    ensures captured && liveAfter == {} && handle.Some?
  {
    var clearance := Cookie(ClearanceName, value, "");
    var browser := new Browser(true, [ReadFailed, Cookies([clearance])], ReadFailed);
    assert FirstStored(browser.pages) == Some(1);
    var store := new CredentialStore("");
    var poller := new ManualPoller();
    poller.Start(browser);
    captured := poller.Tick(store, now);
    liveAfter, handle := poller.live, poller.manualPoll;
  }
}
