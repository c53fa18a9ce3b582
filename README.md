# cf_proxy core, modelled in Dafny

`proxy.js` is a reverse proxy in front of a site protected by Cloudflare. It keeps one
session credential (the `cf_clearance` cookie and the cookies around it) in module globals,
forwards `/proxy/*` requests upstream with that credential, and notices when the upstream
answers with a challenge. Then it refreshes the credential by driving a headless browser
and retries once. An operator can also open a visible browser and solve the challenge by
hand while a poller picks up the cookie.

This project models the sequential core of that file:

- `Challenge`: the challenge classifier `isCFChallenge`, over a body that is a string or
  some other value. Letter case is folded for ASCII only (module `Text`).
- `Paths`: `targetPath` and `normalizePath`. The WHATWG URL parser is a parameter
  (`UrlParser`) that either yields `pathname` and `search` or fails.
- `Credentials`: the cookie list, `cookies.find` for `cf_clearance` and the `"; "`-joined
  header. The class `CredentialStore` holds the globals `cfCookie` and `cfUpdatedAt`, and
  its `Store` is `storeCookies` with the clock reading passed in.
- `CookiePull`: `pullCookieFrom` as a loop over the browser's pages. A `Browser` object
  stands for Puppeteer. Its fields give what each page's cookie read yields (a cookie list or
  an exception) and what a freshly opened page yields. Its ghost fields count the reads, the
  pages opened and closed, and the URLs visited.
- `Refresh`: the single-flight slot `refreshing` of `refreshCookie`, split into its two
  synchronous halves `Enter` and `Leave` so that other callers can be interleaved between
  them. A promise is identified by a task number. `RunRefreshTask` is the task's body.
- `ManualPolling`: `startManualPolling` as an event system with the events Start, Tick and
  Deadline. The state holds the global `manualPoll`, the set of intervals that are still
  registered, and the number of armed three-minute deadlines. Two behaviours of the source
  are kept as written. A successful tick clears the interval but leaves `manualPoll` set.
  A deadline clears whatever `manualPoll` holds when it fires, so a deadline armed by an
  earlier start ends a restarted schedule early (`StaleDeadlineEndsRestart`).
- `Forwarding`: the `/proxy/*` handler's control flow. The upstream is a function from
  "n-th fetch of this request" to a response or transport error. The refresh is an abstract
  result: either the credential it left, or a failure. The handler returns the reply and the
  list of calls it made.

## Model

| member | source | states |
|---|---|---|
| `Challenge.IsChallenge` | proxy.js:110-111 | a body that is not a string is never a challenge |
| `Challenge.ChallengeIff` | proxy.js:110-120 | a string body is a challenge exactly when, ignoring ASCII case, it contains "cloudflare" and at least one of "ray id", "checking your browser", "verify you are human", "turnstile" |
| `Challenge.BrandRequired` | proxy.js:114-118 | without "cloudflare" no marker phrase makes a body a challenge |
| `Challenge.BrandWithRayId` | proxy.js:114-115 | "cloudflare" together with "ray id" is a challenge |
| `Challenge.CaseInsensitive` | proxy.js:112 | two bodies that differ only in letter case are classified alike |
| `Challenge.VerifyHumanWithoutBrand` | proxy.js:113-119 | "Please Verify you are human" is not a challenge |
| `Challenge.BrandedRayIdPage` | proxy.js:112-115 | "CloudFlare Ray ID: 8a1b" is a challenge, mixed case included |
| `Text.ContainsIff` | proxy.js:114 | `includes` holds exactly when the needle occurs at some index |
| `Text.ContainsLowerIff` | proxy.js:112-114 | searching the lower-cased body finds exactly the case-folded occurrences |
| `Paths.TargetPath` | proxy.js:136-139 | the upstream path always starts with "/" |
| `Paths.NormalizePath` | proxy.js:141-142 | an absent or empty path becomes "/" |
| `Paths.NormalizeRelative` | proxy.js:151 | a path not starting with "http" is returned as is when it starts with "/", and with "/" prepended otherwise |
| `Paths.NormalizeAbsolute` | proxy.js:143-149 | a path starting with "http" becomes the parsed pathname plus search, or "/" when parsing throws |
| `Paths.NormalizeRooted` | proxy.js:141-152 | every path starting with "/" is left unchanged |
| `Paths.NormalizeIdempotent` | proxy.js:141-152 | on absent paths and paths not starting with "http", normalizing twice equals normalizing once |
| `Paths.TargetPathStripsPrefix` | proxy.js:137-138 | "/proxy" followed by a rooted rest maps to that rest |
| `Paths.TargetPathStripsOnce` | proxy.js:137 | of "/proxy/proxy..." only the first "/proxy" is removed |
| `Paths.TargetPathEmptyRest` | proxy.js:137-138 | "/proxy", alone or followed by a query, maps to the root with that query |
| `Paths.TargetPathUnprefixed` | proxy.js:137-138 | a rooted URL without the prefix passes through unchanged |
| `Paths.TargetPathNormalized` | proxy.js:136-152 | the path the route hands to a refresh is a fixed point of `normalizePath` |
| `Credentials.FindClearance` | proxy.js:54 | finds a cookie named `cf_clearance` exactly when the list has one, and the cookie found is in the list |
| `Credentials.HeaderConcat` | proxy.js:56 | the header keeps input order: the header of `a + b` is the header of `a`, "; ", then the header of `b` |
| `Credentials.HeaderHasPair` | proxy.js:56 | every input cookie's `name=value` occurs in the header |
| `Credentials.StoredHeaderHasClearance` | proxy.js:54-57 | a header built from cookies that include `cf_clearance` is non-empty and contains `cf_clearance=<value>` |
| `Credentials.CredentialStore.constructor` | proxy.js:17-18 | the store starts with the seed credential and time 0 |
| `Credentials.CredentialStore.Store` | proxy.js:53-64 | returns true exactly when a `cf_clearance` cookie is present; then the header is built from all cookies and the time is the clock reading; otherwise nothing changes |
| `CookiePull.FirstStored` | proxy.js:91-98 | yields the first page whose cookies store, or none when no page stores |
| `CookiePull.PullSucceedsIff` | proxy.js:88-107 | a pull returns true exactly when the browser is connected and some open page or the fallback page yields a clearance cookie |
| `CookiePull.PulledCookies` | proxy.js:91-104 | the cookies a pull stores are the first storing page's, else the fallback page's; there are none exactly when neither stores, and any it yields contain a `cf_clearance` cookie |
| `CookiePull.Browser.ReadCookies` | proxy.js:93 | reading a page's cookies yields that page's result and counts one read |
| `CookiePull.Browser.OpenAndRead` | proxy.js:100-103 | opening the fallback page visits the given URL and yields the fallback result |
| `CookiePull.Browser.SafeClose` | proxy.js:170-176 | closing a page counts one close |
| `CookiePull.PullCookieFrom` | proxy.js:88-108 | absent or disconnected browser: false, nothing read or stored. Otherwise pages are read in order up to the first that stores, and the result is true. A page whose read throws is skipped. Only when no page stores are all pages read and one fallback page opened on the upstream and closed; its store decides the result, and its failure propagates. A true result stores the header of the pulled cookies with the clock reading; any other result stores nothing |
| `Refresh.RefreshSlot.constructor` | proxy.js:21 | the slot starts empty |
| `Refresh.RefreshSlot.Enter` | proxy.js:67-68 | with a task in flight, returns that task and starts nothing; otherwise installs a new task and starts one navigation |
| `Refresh.RefreshSlot.Leave` | proxy.js:81-85 | the creating call's `finally` empties the slot |
| `Refresh.RunRefreshTask` | proxy.js:69-79 | navigates a new page to the upstream URL of the normalized path; succeeds exactly when the page yields a clearance cookie, storing it; closes the page on every path |
| `Refresh.RefreshCookie` | proxy.js:66-86 | a call that finds a task awaits it and touches nothing; otherwise it starts one task, which navigates one page to the upstream URL of the normalized `path` and reads no existing page, and the slot is empty afterwards, on success and on failure |
| `Refresh.SingleFlight` | proxy.js:66-86 | a first caller and n callers arriving while it is in flight start one task; all later callers get that task; the slot is empty after the creator finishes |
| `ManualPolling.ManualPoller.constructor` | proxy.js:22 | no interval, no deadline |
| `ManualPolling.ManualPoller.Start` | proxy.js:154-168 | clears the interval in `manualPoll`, installs a fresh one as the only live interval, and arms one more deadline without cancelling earlier ones |
| `ManualPolling.ManualPoller.Tick` | proxy.js:156-166 | pulls from the polled browser; on success stores the pulled cookies' non-empty header with the clock reading, clears the interval and keeps `manualPoll` set; on failure or exception changes neither the store nor the schedule; the browser's pages are only read |
| `ManualPolling.ManualPoller.Deadline` | proxy.js:167 | clears whatever interval `manualPoll` holds when it fires, leaving no live interval |
| `ManualPolling.RestartKeepsOneSchedule` | proxy.js:155-156 | two starts leave exactly one live interval, the second, and the first is no longer live |
| `ManualPolling.StaleDeadlineEndsRestart` | proxy.js:155-167 | after two starts, the first deadline ends the second schedule while one deadline stays armed |
| `ManualPolling.CaptureKeepsHandle` | proxy.js:158-162 | a tick that captures the cookie leaves no live interval but `manualPoll` still set |
| `Forwarding.CookieHeader` | proxy.js:127 | a cookie header is sent exactly when the credential is non-empty, and it is the credential |
| `Forwarding.Handle` | proxy.js:232-251 | at most two fetches and one refresh, and a second fetch only after a refresh. The first fetch goes to the upstream path with the current credential. A refresh happens exactly when the first response is a 403 or a challenge; then, whether or not the refresh fails, one retry goes to the same URL with the credential the refresh left. Without a refresh the first fetch is the only call and its response is the reply. The reply is the last fetch's response, or 500 "proxy error" when that fetch threw |
| `Forwarding.ForbiddenThenServed` | proxy.js:236-244 | no credential, upstream 403 then 200: one refresh, two fetches, the retry carries the new credential, the client gets the 200 page |
| `Forwarding.ServedDirectly` | proxy.js:236-247 | a credential in hand and an upstream that serves at once: a single fetch with that credential and no refresh |

## Left out

- Express routing, `/status`, `/manual/refresh`, `/manual/pull`, `app.listen` and the JSON replies (proxy.js:191-230, 253-256): HTTP plumbing.
- `ensureBrowser`, `newPage`, `setupPage` with its stealth script, and `closeBrowsers` (proxy.js:24-51, 178-189, 267-296): Puppeteer calls. The browser is the abstract `Browser`. A failure to launch the browser or to open a page before the `try` is not modelled.
- `upstreamGet` and axios (proxy.js:122-134): the network client. The model keeps only the cookie header (`CookieHeader`); the user agent, language header and timeout are not modelled.
- `page.waitForTimeout(WAIT_MS)` and the navigation timeouts: timing. A navigation that times out is a read that throws.
- Real async interleaving: `RefreshCookie` and `Tick` run without interruption. Interleavings of the refresh slot are expressed with `Enter` and `Leave`. A tick whose `await` spans a restart is not modelled; such a tick would clear the new interval.
- Promise settlement: the outcome that joined callers await is identified by the task number, not stored.
- Wall-clock order of the deadlines: armed deadlines are counted, not timed. Each one clears the global `manualPoll`, so their order does not change the state.
- WHATWG URL parsing: it is the parameter `UrlParser`.
- Unicode `toLowerCase`: only ASCII letters are folded.
- Environment and configuration parsing (proxy.js:5-15): `Config.Upstream` is the default upstream, and the seed credential is the constructor's argument.
- Signal handlers and logging (proxy.js:58-62, 258-265): no effect on the core's state.
- The clock: each call receives one reading `now`, so all stores within one pull use the same reading. `cfUpdatedAt` is non-decreasing only when the clock is.
- `Forwarding.Handle`: the refresh is an abstract result rather than the `Refresh` module's task, and the credential at request time is a parameter.
