/** The challenge-page classifier `isCFChallenge` (proxy.js:110-120). */
module Challenge {
  import opened Text

  /** A response body: a string, or any other JavaScript value (buffer, object, undefined). */
  datatype Body = StringBody(s: string) | OtherBody

  const Brand: string := "cloudflare"
  const RayId: string := "ray id"
  const Checking: string := "checking your browser"
  const VerifyHuman: string := "verify you are human"
  const Turnstile: string := "turnstile"

  function IsChallenge(body: Body): (r: bool)
    ensures body.OtherBody? ==> !r
  {
    match body
    case OtherBody => false
    case StringBody(s) =>
      var lower := Lower(s);
      Contains(lower, Brand)
      && (Contains(lower, RayId) || Contains(lower, Checking)
          || Contains(lower, VerifyHuman) || Contains(lower, Turnstile))
  }

  /** `s` mentions `t` ignoring ASCII letter case (`t` is written in lower case). */
  ghost predicate Mentions(s: string, t: string) {
    exists i :: FoldedAt(s, t, i)
  }

  /** The classifier's meaning: the brand and at least one of the four markers, ignoring case. */
  lemma ChallengeIff(s: string)
    ensures IsChallenge(StringBody(s)) <==>
              Mentions(s, Brand)
              && (Mentions(s, RayId) || Mentions(s, Checking)
                  || Mentions(s, VerifyHuman) || Mentions(s, Turnstile))
  {
    ContainsLowerIff(s, Brand);
    ContainsLowerIff(s, RayId);
    ContainsLowerIff(s, Checking);
    ContainsLowerIff(s, VerifyHuman);
    ContainsLowerIff(s, Turnstile);
  }

  /** Without the brand token no wording counts as a challenge, "verify you are human" included. */
  lemma BrandRequired(s: string)
    requires !Mentions(s, Brand)
    ensures !IsChallenge(StringBody(s))
  {
    ChallengeIff(s);
  }

  /** The brand together with a "ray id" is a challenge. */
  lemma BrandWithRayId(s: string)
    requires Mentions(s, Brand) && Mentions(s, RayId)
    ensures IsChallenge(StringBody(s))
  {
    ChallengeIff(s);
  }

  /** Two bodies that differ only in ASCII letter case are classified alike. */
  lemma CaseInsensitive(s: string, t: string)
    requires |s| == |t|
    requires forall i :: 0 <= i < |s| ==> LowerChar(s[i]) == LowerChar(t[i])
    ensures IsChallenge(StringBody(s)) == IsChallenge(StringBody(t))
  {
    assert Lower(s) == Lower(t);
  }

  /** A page asking to "verify you are human" but never naming the brand is not a challenge. */
  lemma VerifyHumanWithoutBrand()
    ensures !IsChallenge(StringBody("Please Verify you are human"))
  {
    var s := "Please Verify you are human";
    assert 'c' !in s && 'C' !in s;
    forall i | 0 <= i && i + |Brand| <= |s| ensures !FoldedAt(s, Brand, i) {
      assert s[i + 0] in s;
      assert LowerChar(s[i + 0]) != Brand[0];
    }
    BrandRequired(s);
  }

  /** A branded error page with a ray id is a challenge, whatever its letter case. */
  lemma BrandedRayIdPage()
    ensures IsChallenge(StringBody("CloudFlare Ray ID: 8a1b"))
  {
    var s := "CloudFlare Ray ID: 8a1b";
    assert FoldedAt(s, Brand, 0);
    assert FoldedAt(s, RayId, 11);
    BrandWithRayId(s);
  }
}
