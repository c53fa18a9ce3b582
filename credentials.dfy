/**
 * The credential store: the module globals `cfCookie` and `cfUpdatedAt` (proxy.js:17-18)
 * and `storeCookies`, which replaces them (proxy.js:53-64).
 */
module Credentials {
  import opened Wrappers
  import opened Text

  /** A cookie as the browser reports it. */
  datatype Cookie = Cookie(name: string, value: string, domain: string)

  /** The cookie whose presence proves a solved challenge. */
  const ClearanceName: string := "cf_clearance"

  /** `cookies.find((c) => c.name === 'cf_clearance')`. */
  function FindClearance(cookies: seq<Cookie>): (r: Option<Cookie>)
    ensures r.None? <==> forall i :: 0 <= i < |cookies| ==> cookies[i].name != ClearanceName
    ensures r.Some? ==> r.value in cookies && r.value.name == ClearanceName
  {
    if cookies == [] then None
    else if cookies[0].name == ClearanceName then Some(cookies[0])
    else FindClearance(cookies[1..])
  }

  /** One cookie as a `name=value` pair. */
  function Pair(c: Cookie): string {
    c.name + "=" + c.value
  }

  /** `cookies.map((c) => `${c.name}=${c.value}`).join('; ')`. */
  function Header(cookies: seq<Cookie>): string {
    if |cookies| == 0 then ""
    else if |cookies| == 1 then Pair(cookies[0])
    else Pair(cookies[0]) + "; " + Header(cookies[1..])
  }

  /** The header keeps input order: the header of a concatenation joins the two headers. */
  lemma {:induction false} HeaderConcat(a: seq<Cookie>, b: seq<Cookie>)
    requires a != [] && b != []
    ensures Header(a + b) == Header(a) + "; " + Header(b)
    decreases |a|
  {
    assert (a + b)[0] == a[0];
    if |a| == 1 {
      assert (a + b)[1..] == b;
    } else {
      assert (a + b)[1..] == a[1..] + b;
      HeaderConcat(a[1..], b);
    }
  }

  /** Every input cookie appears in the header as its `name=value` pair. */
  lemma {:induction false} HeaderHasPair(cookies: seq<Cookie>, i: nat)
    requires i < |cookies|
    ensures Contains(Header(cookies), Pair(cookies[i]))
    decreases |cookies|
  {
    var h := Header(cookies);
    var p := Pair(cookies[i]);
    ContainsIff(h, p);
    if i == 0 {
      assert h[0..|p|] == p;
      assert OccursAt(h, p, 0);
    } else {
      var first := Pair(cookies[0]) + "; ";
      var tail := Header(cookies[1..]);
      assert h == first + tail;
      assert cookies[1..][i - 1] == cookies[i];
      HeaderHasPair(cookies[1..], i - 1);
      ContainsIff(tail, p);
      var k :| OccursAt(tail, p, k);
      assert h[|first| + k..|first| + k + |p|] == tail[k..k + |p|];
      assert OccursAt(h, p, |first| + k);
    }
  }

  /** A header built from cookies that include the clearance cookie carries its value. */
  lemma StoredHeaderHasClearance(cookies: seq<Cookie>)
    requires FindClearance(cookies).Some?
    ensures |Header(cookies)| > 0
    ensures Contains(Header(cookies), ClearanceName + "=" + FindClearance(cookies).value.value)
  {
    var c := FindClearance(cookies).value;
    var i :| 0 <= i < |cookies| && cookies[i] == c;
    HeaderHasPair(cookies, i);
    ContainsIff(Header(cookies), Pair(c));
  }

  /** The process-wide credential: the header sent upstream and the time it was captured. */
  class CredentialStore {
    var cfCookie: string
    var cfUpdatedAt: int

    /** Start-up state: the seed credential from the environment, never updated. */
    constructor (seed: string)
      ensures cfCookie == seed && cfUpdatedAt == 0
    {
      cfCookie := seed;
      cfUpdatedAt := 0;
    }

    /**
     * `storeCookies(cookies)`, with the clock reading `now` as a parameter. Without a
     * clearance cookie nothing changes; with one, the header is rebuilt from all cookies.
     */
    method Store(cookies: seq<Cookie>, now: int) returns (ok: bool)
      modifies this
      ensures ok <==> FindClearance(cookies).Some?
      ensures ok ==> cfCookie == Header(cookies) && cfUpdatedAt == now
      ensures !ok ==> cfCookie == old(cfCookie) && cfUpdatedAt == old(cfUpdatedAt)
    {
      var cf := FindClearance(cookies);
      if cf.None? {
        return false;
      }
      cfCookie := Header(cookies);
      cfUpdatedAt := now;
      return true;
    }
  }
}
