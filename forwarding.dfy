/**
 * The decision flow of the proxy route (proxy.js:232-251): one upstream fetch, and one
 * refresh followed by exactly one retry when the first response is a 403 or a challenge page.
 * The upstream and the refresh are abstract; the calls made are returned as a list of effects.
 */
module Forwarding {
  import opened Wrappers
  import opened Challenge
  import opened Paths
  import Config

  /** An upstream response; any status resolves (`validateStatus: () => true`). */
  datatype Response = Response(status: int, data: Body)

  /** The result of one upstream fetch: a response, or a transport error (thrown by axios). */
  datatype Fetched = Got(response: Response) | TransportError

  /** The upstream as seen by one request: what its n-th fetch (counting from 0) gives. */
  type UpstreamServer = nat -> Fetched

  /** What the awaited refresh leaves in `cfCookie`, or its failure (logged and swallowed). */
  datatype RefreshResult = RefreshedTo(cfCookie: string) | RefreshFailed

  /** A call the handler makes: an upstream GET with its cookie header, or a refresh. */
  datatype Effect = Fetch(url: string, cookie: Option<string>) | Refresh(path: string)

  const ProxyError: Response := Response(500, StringBody("proxy error"))

  /** The condition under which the handler refreshes and retries (proxy.js:237). */
  predicate NeedsRefresh(r: Response) {
    r.status == 403 || IsChallenge(r.data)
  }

  /** The cookie header `upstreamGet` attaches: none while `cfCookie` is empty (proxy.js:127). */
  function CookieHeader(cfCookie: string): (h: Option<string>)
    ensures h.None? <==> cfCookie == ""
    ensures h.Some? ==> h.value == cfCookie
  {
    if cfCookie == "" then None else Some(cfCookie)
  }

  /** What the client receives for a fetch's result. */
  function Reply(f: Fetched): Response {
    match f
    case Got(r) => r
    case TransportError => ProxyError
  }

  function CountFetches(effects: seq<Effect>): nat {
    if effects == [] then 0 else (if effects[0].Fetch? then 1 else 0) + CountFetches(effects[1..])
  }

  function CountRefreshes(effects: seq<Effect>): nat {
    if effects == [] then 0 else (if effects[0].Refresh? then 1 else 0) + CountRefreshes(effects[1..])
  }

  /**
   * The proxy route handler for a request whose original URL is `originalUrl`, with `cfCookie`
   * the credential at the time of the request.
   */
  method Handle(originalUrl: string, cfCookie: string, upstream: UpstreamServer, refresh: RefreshResult)
    returns (reply: Response, effects: seq<Effect>)
    // at most two fetches and at most one refresh, whatever the upstream answers
    ensures 1 <= CountFetches(effects) <= 2 && CountRefreshes(effects) <= 1
    // a second fetch happens only after a refresh
    ensures CountFetches(effects) == 2 <==> CountRefreshes(effects) == 1
    // the first fetch goes to the upstream path with the current credential
    ensures effects[0] == Fetch(Config.Upstream + TargetPath(originalUrl), CookieHeader(cfCookie))
    // a refresh happens exactly when the first fetch returned a 403 or a challenge page
    ensures CountRefreshes(effects) == 1 <==> upstream(0).Got? && NeedsRefresh(upstream(0).response)
    // then the retry follows the refresh, to the same URL, with the credential now held
    ensures CountRefreshes(effects) == 1 ==>
              effects == [effects[0], Refresh(TargetPath(originalUrl)),
                          Fetch(Config.Upstream + TargetPath(originalUrl),
                                CookieHeader(if refresh.RefreshedTo? then refresh.cfCookie else cfCookie))]
    // without a refresh the first fetch is the only call, and its response is the reply
    ensures CountRefreshes(effects) == 0 ==> effects == [effects[0]] && reply == Reply(upstream(0))
    // the client gets the last fetch's response, or "proxy error" if that fetch threw
    ensures reply == Reply(upstream(CountFetches(effects) - 1))
  {
    var path := TargetPath(originalUrl);
    var url := Config.Upstream + path;
    var first := upstream(0);
    effects := [Fetch(url, CookieHeader(cfCookie))];
    if first.TransportError? {
      return ProxyError, effects;
    }
    if NeedsRefresh(first.response) {
      effects := effects + [Refresh(path)];
      var current := if refresh.RefreshedTo? then refresh.cfCookie else cfCookie;
      var retry := upstream(1);
      effects := effects + [Fetch(url, CookieHeader(current))];
      assert effects[1..][1..][1..] == [];
      assert CountFetches(effects[1..][1..]) == 1 && CountRefreshes(effects[1..][1..]) == 0;
      assert CountFetches(effects) == 2 && CountRefreshes(effects) == 1;
      if retry.TransportError? {
        return ProxyError, effects;
      }
      return retry.response, effects;
    }
    return first.response, effects;
  }

  /**
   * A request for "/proxy/leaderboard?region=NA" with no credential, against an upstream that
   * answers 403 and then 200: one refresh, and the client receives the 200 page.
   */
  method ForbiddenThenServed(html: string, refreshed: string)
    returns (reply: Response, effects: seq<Effect>)
    requires refreshed != ""
    ensures reply == Response(200, StringBody(html))
    ensures CountRefreshes(effects) == 1 && CountFetches(effects) == 2 && |effects| == 3
    ensures effects[1] == Refresh("/leaderboard?region=NA")
    ensures effects[2] == Fetch(Config.Upstream + "/leaderboard?region=NA", Some(refreshed))
  {
    var upstream: UpstreamServer :=
      n => if n == 0 then Got(Response(403, StringBody("Forbidden"))) else Got(Response(200, StringBody(html)));
    TargetPathStripsPrefix("/leaderboard?region=NA");
    reply, effects := Handle("/proxy/leaderboard?region=NA", "", upstream, RefreshedTo(refreshed));
  }

  /** A credential in hand and an upstream that serves at once: one fetch and no refresh. */
  method ServedDirectly(rest: string, cfCookie: string, page: Response)
    returns (reply: Response, effects: seq<Effect>)
    requires Rooted(rest) && cfCookie != ""
    requires !NeedsRefresh(page)
    ensures reply == page
    ensures effects == [Fetch(Config.Upstream + rest, Some(cfCookie))]
  {
    TargetPathStripsPrefix(rest);
    reply, effects := Handle(ProxyPrefix + rest, cfCookie, n => Got(page), RefreshFailed);
  }
}
