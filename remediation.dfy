/** The request verdict: the chain of early exits of the request handler and
    the dispatch of a cache value to pass-through, 403 or the captcha page.
    Client-address extraction, the trusted-client check, the captcha cookie
    check and the live lookup enter as already-computed facts. */
module Remediation {
  import opened Types
  import opened DecisionCache

  datatype Outcome = Pass | Forbidden | Challenge

  /** What the collaborators report about one request: the extracted client
      address (or its extraction error), the trusted-client test (or its error),
      the captcha client's provider validity, whether the request carries a
      verified captcha cookie, and the URL path. */
  datatype RequestFacts = RequestFacts(remoteIP: Result<string>, trusted: Result<bool>,
                                       captchaValid: bool, cookieOk: bool, path: string)

  /** The captcha fallback rule: an unusable provider with fallback "ban" turns
      a captcha value into a ban. */
  predicate FallsBackToBan(c: Config, v: Value, captchaValid: bool)
  {
    v == Captcha && !captchaValid && c.fallbackRemediation == "ban"
  }

  /** The remediation dispatch of one cache value. */
  function Dispatch(c: Config, v: Value, captchaValid: bool, cookieOk: bool, path: string): (o: Outcome)
    ensures o == Forbidden <==> v == Banned || FallsBackToBan(c, v, captchaValid)
    ensures o == Challenge <==>
              v == Captcha && !FallsBackToBan(c, v, captchaValid) && !cookieOk && path != FaviconPath
    ensures v != Banned && v != Captcha ==> o == Pass
  {
    var effective := if FallsBackToBan(c, v, captchaValid) then Banned else v;
    match effective
    case Banned => Forbidden
    case Captcha => if !cookieOk && path != FaviconPath then Challenge else Pass
    case _ => Pass
  }

  /** The request got past the enabled switch, address extraction and the
      trusted-client test: only now does the cache or the decision source matter. */
  predicate Screened(c: Config, req: RequestFacts)
  {
    c.enabled && req.remoteIP.Ok? && req.trusted == Ok(false)
  }

  /** Stream and alone mode keep the cache filled in the background. */
  predicate Streaming(c: Config)
  {
    c.mode == StreamMode || c.mode == AloneMode
  }

  /** The outcome of one request, given the cache read of its address, the
      stream health flag and the value the live lookup would return. */
  function Verdict(c: Config, req: RequestFacts, cached: LookupResult, healthy: bool, live: Value): (o: Outcome)
    ensures !c.enabled ==> o == Pass
    ensures c.enabled && (req.remoteIP.Err? || req.trusted.Err?) ==> o == Forbidden
    ensures c.enabled && req.remoteIP.Ok? && req.trusted == Ok(true) ==> o == Pass
    ensures Screened(c, req) && c.mode != NoneMode && cached.Failed? ==> o == Forbidden
    ensures Screened(c, req) && c.mode != NoneMode && cached.Hit? ==>
              o == Dispatch(c, cached.value, req.captchaValid, req.cookieOk, req.path)
    ensures Screened(c, req) && Streaming(c) && cached.Miss? ==> (o == Pass <==> healthy) && o != Challenge
    ensures Screened(c, req) && (c.mode == NoneMode || (c.mode == LiveMode && cached.Miss?)) ==>
              o == Dispatch(c, live, req.captchaValid, req.cookieOk, req.path)
  {
    if !c.enabled then Pass
    else if req.remoteIP.Err? then Forbidden
    else if req.trusted.Err? then Forbidden
    else if req.trusted.value then Pass
    else if c.mode != NoneMode && cached.Failed? then Forbidden
    else if c.mode != NoneMode && cached.Hit? then
      Dispatch(c, cached.value, req.captchaValid, req.cookieOk, req.path)
    else if Streaming(c) then (if healthy then Pass else Forbidden)
    else Dispatch(c, live, req.captchaValid, req.cookieOk, req.path)
  }

  /** A captcha value whose provider is unusable, with fallback "ban", is
      handled exactly like a ban, whatever the cookie and the path. */
  lemma FallbackIsBan(c: Config, captchaValid: bool, cookieOk: bool, path: string)
    requires !captchaValid && c.fallbackRemediation == "ban"
    ensures Dispatch(c, Captcha, captchaValid, cookieOk, path) == Dispatch(c, Banned, captchaValid, cookieOk, path) == Forbidden
  {
  }

  /** The favicon is never challenged. */
  lemma FaviconNeverChallenged(c: Config, v: Value, captchaValid: bool, cookieOk: bool)
    ensures Dispatch(c, v, captchaValid, cookieOk, FaviconPath) != Challenge
  {
  }

  /** A trusted client passes whatever the cache, the health flag or the live
      lookup would say. */
  lemma TrustedClientAlwaysPasses(c: Config, req: RequestFacts, cached: LookupResult, healthy: bool, live: Value)
    requires req.remoteIP.Ok? && req.trusted == Ok(true)
    ensures Verdict(c, req, cached, healthy, live) == Pass
  {
  }

  /** In none mode the cache read has no influence at all. */
  lemma NoneModeIgnoresCache(c: Config, req: RequestFacts, cached1: LookupResult, cached2: LookupResult,
                             healthy: bool, live: Value)
    requires c.mode == NoneMode
    ensures Verdict(c, req, cached1, healthy, live) == Verdict(c, req, cached2, healthy, live)
  {
  }

  /** In stream and alone mode the live lookup has no influence at all. */
  lemma StreamingNeverUsesLiveLookup(c: Config, req: RequestFacts, cached: LookupResult, healthy: bool,
                                     live1: Value, live2: Value)
    requires Streaming(c)
    ensures Verdict(c, req, cached, healthy, live1) == Verdict(c, req, cached, healthy, live2)
  {
  }
}
