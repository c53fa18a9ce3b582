/** Mapping of client paths to upstream paths: `targetPath` and `normalizePath` (proxy.js:136-152). */
module Paths {
  import opened Wrappers

  /** The parts of a parsed URL that `normalizePath` keeps: `url.pathname` and `url.search`. */
  datatype Url = Url(pathname: string, search: string)

  /**
   * A URL parser (`new URL(p)`): `None` where it throws. Its internals are not modelled, so it
   * is a parameter of every operation that parses.
   */
  type UrlParser = string -> Option<Url>

  const ProxyPrefix: string := "/proxy"

  /** `p.startsWith('/')`. */
  predicate Rooted(p: string) {
    |p| > 0 && p[0] == '/'
  }

  /**
   * `targetPath(req)`: remove one leading "/proxy" from the request's original URL (path and
   * query), replace an empty remainder by "/", and add a leading slash if there is none.
   */
  function TargetPath(originalUrl: string): (r: string)
    ensures Rooted(r)
  {
    var stripped := if ProxyPrefix <= originalUrl then originalUrl[|ProxyPrefix|..] else originalUrl;
    var p := if stripped == "" then "/" else stripped;
    if p[0] == '/' then p else "/" + p
  }

  /**
   * `normalizePath(p)`: an absent or empty path is "/"; a path starting with "http" is parsed
   * as a URL and reduced to its path and query, or to "/" when parsing fails; any other path
   * gets a leading slash if it has none.
   */
  function NormalizePath(p: Option<string>, parse: UrlParser): (r: string)
    ensures p.None? || p == Some("") ==> r == "/"
  {
    match p
    case None => "/"
    case Some(s) =>
      if s == "" then "/"
      else if "http" <= s then
        match parse(s)
        case None => "/"
        case Some(url) => url.pathname + url.search
      else if s[0] == '/' then s
      else "/" + s
  }

  /** A relative path is rooted by prepending one slash, and left alone when already rooted. */
  lemma NormalizeRelative(s: string, parse: UrlParser)
    requires s != "" && !("http" <= s)
    ensures Rooted(NormalizePath(Some(s), parse))
    ensures NormalizePath(Some(s), parse) == s <==> Rooted(s)
    ensures !Rooted(s) ==> NormalizePath(Some(s), parse) == "/" + s
  {
  }

  /** An absolute URL becomes its path plus query, or "/" when the parser rejects it. */
  lemma NormalizeAbsolute(s: string, parse: UrlParser)
    requires "http" <= s
    ensures parse(s).None? ==> NormalizePath(Some(s), parse) == "/"
    ensures parse(s).Some? ==>
              NormalizePath(Some(s), parse) == parse(s).value.pathname + parse(s).value.search
  {
  }

  /** Every rooted path is a fixed point of NormalizePath. */
  lemma NormalizeRooted(s: string, parse: UrlParser)
    requires Rooted(s)
    ensures NormalizePath(Some(s), parse) == s
  {
  }

  /** On every input that is not an absolute URL, normalizing twice is normalizing once. */
  lemma NormalizeIdempotent(p: Option<string>, parse: UrlParser)
    requires p.None? || !("http" <= p.value)
    ensures NormalizePath(Some(NormalizePath(p, parse)), parse) == NormalizePath(p, parse)
  {
    var once := NormalizePath(p, parse);
    if p.Some? && p.value != "" {
      NormalizeRelative(p.value, parse);
    }
    NormalizeRooted(once, parse);
  }

  /** A proxied path keeps everything after the "/proxy" prefix. */
  lemma TargetPathStripsPrefix(rest: string)
    requires Rooted(rest)
    ensures TargetPath(ProxyPrefix + rest) == rest
  {
    assert (ProxyPrefix + rest)[|ProxyPrefix|..] == rest;
  }

  /** Only one "/proxy" is removed. */
  lemma TargetPathStripsOnce(rest: string)
    requires Rooted(rest)
    ensures TargetPath(ProxyPrefix + ProxyPrefix + rest) == ProxyPrefix + rest
  {
    assert ProxyPrefix + ProxyPrefix + rest == ProxyPrefix + (ProxyPrefix + rest);
    TargetPathStripsPrefix(ProxyPrefix + rest);
  }

  /** "/proxy" alone, or followed directly by a query, maps to the upstream root. */
  lemma TargetPathEmptyRest(query: string)
    requires query == "" || query[0] == '?'
    ensures TargetPath(ProxyPrefix + query) == "/" + query
  {
    assert (ProxyPrefix + query)[|ProxyPrefix|..] == query;
  }

  /** A rooted URL without the prefix is passed through unchanged. */
  lemma TargetPathUnprefixed(u: string)
    requires Rooted(u) && !(ProxyPrefix <= u)
    ensures TargetPath(u) == u
  {
  }

  /** What the proxy route hands to a refresh is already normalized. */
  lemma TargetPathNormalized(u: string, parse: UrlParser)
    ensures NormalizePath(Some(TargetPath(u)), parse) == TargetPath(u)
  {
    NormalizeRooted(TargetPath(u), parse);
  }
}
