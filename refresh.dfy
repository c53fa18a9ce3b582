/**
 * Single-flight credential refresh: `refreshCookie` (proxy.js:66-86). The promise held in the
 * module global `refreshing` is modelled as a task number; the two synchronous halves of the
 * async function are the methods Enter (proxy.js:67-80) and Leave (its `finally`,
 * proxy.js:83-85), so that other callers can be interleaved between them.
 */
module Refresh {
  import opened Wrappers
  import opened Credentials
  import opened CookiePull
  import opened Paths
  import Config

  /** What a call of `refreshCookie` gets: the in-flight task, or a task it created. */
  datatype Call = Joined(task: nat) | Created(task: nat)

  class RefreshSlot {
    /** The global `refreshing`: the in-flight task, if any. */
    var refreshing: Option<nat>
    /** The number the next created task gets (task identity stands for promise identity). */
    var nextTask: nat
    /** How many refresh tasks, hence navigations, have been started. */
    ghost var started: nat
    /** Tasks whose creating call has not yet run its `finally`. */
    ghost var inFlight: set<nat>

    /** At most one task is in flight, and it is the one in the slot. */
    ghost predicate Valid()
      reads this
    {
      && (refreshing.None? ==> inFlight == {})
      && (refreshing.Some? ==> inFlight == {refreshing.value} && refreshing.value < nextTask)
    }

    constructor ()
      ensures Valid() && refreshing == None && started == 0
    {
      refreshing := None;
      nextTask := 0;
      started := 0;
      inFlight := {};
    }

    /**
     * The part of `refreshCookie` before its first suspension: join the task in the slot, or
     * create a task, install it and start its navigation.
     */
    method Enter() returns (call: Call)
      requires Valid()
      modifies this
      ensures Valid()
      ensures old(refreshing).Some? ==>
                && call == Joined(old(refreshing).value)
                && refreshing == old(refreshing) && nextTask == old(nextTask)
                && started == old(started) && inFlight == old(inFlight)
      ensures old(refreshing).None? ==>
                && call == Created(old(nextTask))
                && refreshing == Some(call.task) && nextTask == old(nextTask) + 1
                && started == old(started) + 1 && inFlight == {call.task}
    {
      if refreshing.Some? {
        return Joined(refreshing.value);
      }
      call := Created(nextTask);
      refreshing := Some(nextTask);
      inFlight := {nextTask};
      nextTask := nextTask + 1;
      started := started + 1;
    }

    /** The creating call's `finally`: the slot is emptied, whether the task succeeded or threw. */
    method Leave(task: nat)
      requires Valid() && task in inFlight
      modifies this
      ensures Valid() && refreshing == None && inFlight == {}
      ensures nextTask == old(nextTask) && started == old(started)
    {
      refreshing := None;
      inFlight := {};
    }
  }

  /**
   * The body of a refresh task (proxy.js:69-79): open a page on the upstream URL of `path`,
   * read its cookies and store them; fail when the navigation throws or no clearance cookie
   * is found; close the page on every path.
   */
  method RunRefreshTask(store: CredentialStore, browser: Browser, path: string, parse: UrlParser, now: int)
    returns (ok: bool)
    modifies store, browser
    ensures ok <==> Stores(old(browser.fallback))
    ensures ok ==> store.cfCookie == Header(old(browser.fallback).cookies) && store.cfUpdatedAt == now
    ensures !ok ==> store.cfCookie == old(store.cfCookie) && store.cfUpdatedAt == old(store.cfUpdatedAt)
    ensures browser.visited == old(browser.visited) + [Config.Upstream + NormalizePath(Some(path), parse)]
    ensures browser.pagesOpened == old(browser.pagesOpened) + 1
    ensures browser.pagesClosed == old(browser.pagesClosed) + 1
    ensures browser.cookieReads == old(browser.cookieReads)
    ensures browser.connected == old(browser.connected) && browser.pages == old(browser.pages)
    ensures browser.fallback == old(browser.fallback)
  {
    var url := Config.Upstream + NormalizePath(Some(path), parse);
    var read := browser.OpenAndRead(url);
    ok := false;
    if read.Cookies? {
      ok := store.Store(read.cookies, now);
    }
    browser.SafeClose();
  }

  /** What `refreshCookie` resolves to: the outcome of the task the call awaits. */
  datatype Refreshed = AwaitsTask(task: nat) | Completed(ok: bool)

  /**
   * `refreshCookie(headless, path)` when nothing runs between its two halves: a call that
   * finds a task in flight awaits that task and touches nothing; otherwise it runs a task of
   * its own and leaves the slot empty again, whether the task succeeded or threw.
   */
  method RefreshCookie(slot: RefreshSlot, store: CredentialStore, browser: Browser,
                       path: string, parse: UrlParser, now: int)
    returns (res: Refreshed)
    requires slot.Valid()
    modifies slot, store, browser
    ensures slot.Valid()
    ensures old(slot.refreshing).Some? ==>
              && res == AwaitsTask(old(slot.refreshing).value)
              && slot.refreshing == old(slot.refreshing) && slot.started == old(slot.started)
              && slot.nextTask == old(slot.nextTask)
              && unchanged(store) && unchanged(browser)
    ensures old(slot.refreshing).None? ==>
              && res == Completed(Stores(old(browser.fallback)))
              && slot.refreshing == None && slot.started == old(slot.started) + 1
              && browser.pagesOpened == old(browser.pagesOpened) + 1
              && browser.pagesClosed == old(browser.pagesClosed) + 1
              && browser.visited == old(browser.visited) + [Config.Upstream + NormalizePath(Some(path), parse)]
              && browser.cookieReads == old(browser.cookieReads)
              && browser.connected == old(browser.connected) && browser.pages == old(browser.pages)
              && browser.fallback == old(browser.fallback)
              && slot.nextTask == old(slot.nextTask) + 1
              && (res.ok ==> store.cfCookie == Header(old(browser.fallback).cookies) && store.cfUpdatedAt == now)
              && (!res.ok ==> store.cfCookie == old(store.cfCookie) && store.cfUpdatedAt == old(store.cfUpdatedAt))
  {
    var call := slot.Enter();
    if call.Joined? {
      return AwaitsTask(call.task);
    }
    var ok := RunRefreshTask(store, browser, path, parse, now);
    slot.Leave(call.task);
    return Completed(ok);
  }

  /**
   * Single flight: a first caller and `n` more callers all reach `refreshCookie` before the
   * first task settles. One task is started, every later caller awaits that same task, and
   * once its creator leaves the slot is empty.
   */
  method SingleFlight(slot: RefreshSlot, n: nat) returns (calls: seq<Call>)
    requires slot.Valid() && slot.refreshing == None
    modifies slot
    ensures slot.Valid() && slot.refreshing == None
    ensures slot.started == old(slot.started) + 1
    ensures |calls| == n + 1 && calls[0].Created?
    ensures forall i :: 1 <= i < |calls| ==> calls[i] == Joined(calls[0].task)
  {
    var first := slot.Enter();
    calls := [first];
    var i := 0;
    while i < n
      invariant 0 <= i <= n
      invariant slot.Valid() && slot.refreshing == Some(first.task) && first.Created?
      invariant slot.started == old(slot.started) + 1
      invariant |calls| == i + 1 && calls[0] == first
      invariant forall j :: 1 <= j < |calls| ==> calls[j] == Joined(first.task)
    {
      var c := slot.Enter();
      calls := calls + [c];
      i := i + 1;
    }
    slot.Leave(first.task);
  }
}
