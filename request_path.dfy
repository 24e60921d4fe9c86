/** One request through the handler, against the whole world: the cache read
    of the client address, the live lookup when the chain reaches it, and the
    verdict. */
module RequestPath {
  import opened Types
  import opened DecisionCache
  import opened Remediation
  import opened SyncState
  import opened Transport
  import opened LiveLookup

  /** The cache read of the client address (a miss when there is no address). */
  function CachedFor(w: World, req: RequestFacts): LookupResult
  {
    if req.remoteIP.Ok? then Lookup(w.cache, req.remoteIP.value) else Miss
  }

  /** The chain reaches the on-demand lookup: none mode always, live mode on a cache miss. */
  predicate ConsultsSource(c: Config, req: RequestFacts, cached: LookupResult)
  {
    Screened(c, req) && (c.mode == NoneMode || (c.mode == LiveMode && cached.Miss?))
  }

  /** One request. The lookup's error is dropped: only its value is dispatched. */
  function Serve(c: Config, w: World, req: RequestFacts, secs: DurationParser): (r: Step<Outcome>)
    ensures !ConsultsSource(c, req, CachedFor(w, req)) ==> r.world == w
    ensures r.world.cache == w.cache || c.mode == LiveMode
  {
    var cached := CachedFor(w, req);
    if ConsultsSource(c, req, cached) then
      var a := NoStreamLookup(c, w, req.remoteIP.value, secs);
      Step(a.world, Verdict(c, req, cached, w.healthy, a.result.value))
    else Step(w, Verdict(c, req, cached, w.healthy, NoBanned))
  }

  /** Stream and alone mode, cache miss: the request passes exactly when the
      stream is healthy, and the decision source is not asked. */
  lemma StreamMissFollowsHealth(c: Config, w: World, req: RequestFacts, secs: DurationParser)
    requires Screened(c, req) && Streaming(c) && CachedFor(w, req).Miss?
    ensures Serve(c, w, req, secs) == Step(w, if w.healthy then Pass else Forbidden)
  {
  }

  /** Live or none mode, the call to the decision source fails: the request
      passes, and only the conversation changed. */
  lemma FailedLookupLetsRequestThrough(c: Config, w: World, req: RequestFacts, secs: DurationParser)
    requires ConsultsSource(c, req, CachedFor(w, req))
    requires w.script == [] || w.script[0] == NoConnection
    ensures Serve(c, w, req, secs).result == Pass
    ensures Serve(c, w, req, secs).world ==
              w.(script := if w.script == [] then [] else w.script[1..],
                 sent := w.sent + [Request(DecisionsRoute(req.remoteIP.value), false, w.key)])
  {
  }

  /** None mode passes a request even when the decision source returns a ban for it. */
  lemma NoneModePassesBannedAddress(c: Config, w: World, req: RequestFacts, secs: DurationParser,
                                    ds: seq<Decision>)
    requires Screened(c, req) && c.mode == NoneMode
    requires w.script != [] && w.script[0] == Reply(StatusOK, DecisionList(ds))
    ensures Serve(c, w, req, secs).result == Pass
    ensures Serve(c, w, req, secs).world.cache == w.cache
  {
    NoneModeNeverCaches(c, w, req.remoteIP.value, secs);
  }

  /** Live mode: a returned ban is refused now, cached, and within its time to
      live the next request for that address is refused from the cache without
      another call. */
  lemma LiveBanIsServedFromCacheAfterwards(c: Config, w: World, req: RequestFacts, secs: DurationParser,
                                           d: Decision, t: int, rest: seq<Response>, dt: nat)
    requires Screened(c, req) && c.mode == LiveMode
    requires w.cache.fault.None? && CachedFor(w, req).Miss?
    requires w.script == [Reply(StatusOK, DecisionList([d]))] + rest
    requires d.kind == "ban" && secs(d.duration) == Some(t) && dt < Min(c.defaultDecisionTimeout, t)
    ensures var first := Serve(c, w, req, secs);
            var later := first.world.(cache := Elapsed(first.world.cache, dt));
            && first.result == Forbidden
            && Serve(c, later, req, secs) == Step(later, Forbidden)
  {
    var ip := req.remoteIP.value;
    assert ChosenIndex([d]) == 0;
    DecisionIsCachedWithCappedTtl(c, w, ip, secs, [d], t);
    var first := Serve(c, w, req, secs);
    assert first.world.cache == Stored(w.cache, ip, Banned, Min(c.defaultDecisionTimeout, t));
    StoredExpiresAfterTtl(w.cache, ip, Banned, Min(c.defaultDecisionTimeout, t), dt);
  }

  /** Live mode: a decision list whose chosen entry is neither a ban nor a
      captcha lets the request through, although the lookup returns its "banned" error. */
  lemma LiveOtherDecisionPasses(c: Config, w: World, req: RequestFacts, secs: DurationParser,
                                d: Decision, t: int)
    requires Screened(c, req) && c.mode == LiveMode && CachedFor(w, req).Miss?
    requires w.script != [] && w.script[0] == Reply(StatusOK, DecisionList([d]))
    requires d.kind != "ban" && d.kind != "captcha" && secs(d.duration) == Some(t)
    ensures NoStreamLookup(c, w, req.remoteIP.value, secs).result.error == Some(BannedSignal)
    ensures Serve(c, w, req, secs).result == Pass
  {
    assert ChosenIndex([d]) == 0;
    DecisionIsCachedWithCappedTtl(c, w, req.remoteIP.value, secs, [d], t);
  }
}
