/** The bouncer as objects: the process-wide context holding the globals
    (startup flag, stream health, whether the ticker exists) and the bouncer
    whose methods follow the source step by step. Each method is proved to
    move the world exactly as the matching specification function says. */
module Plugin {
  import opened Types
  import opened DecisionCache
  import opened Remediation
  import opened SyncState
  import opened Transport
  import opened StreamSync
  import opened LiveLookup
  import opened RequestPath

  /** The package globals, shared by every bouncer of the process. */
  class Context {
    var isStartup: bool
    var healthy: bool
    var tickerStarted: bool

    /** The values the globals start with. */
    constructor ()
      ensures isStartup && healthy && !tickerStarted
    {
      isStartup, healthy, tickerStarted := true, true, false;
    }
  }

  class Bouncer {
    const cfg: Config
    const cache: Cache
    const ctx: Context
    var key: string
    /** The replies the decision source will give, in order. */
    var script: seq<Response>
    /** The requests sent to the decision source so far. */
    var sent: seq<Request>

    function Snapshot(): World
      reads this, cache, ctx
    {
      World(cache.State(), key, ctx.healthy, ctx.isStartup, ctx.tickerStarted, script, sent)
    }

    constructor (cfg: Config, cache: Cache, ctx: Context, key: string, script: seq<Response>)
      ensures this.cfg == cfg && this.cache == cache && this.ctx == ctx
      ensures Snapshot() == World(cache.State(), key, ctx.healthy, ctx.isStartup, ctx.tickerStarted, script, [])
    {
      this.cfg, this.cache, this.ctx := cfg, cache, ctx;
      this.key, this.script, this.sent := key, script, [];
    }

    /** One HTTP call with the status branching of the source. */
    method Query(route: Route, post: bool) returns (r: Result<Body>)
      modifies this, ctx
      ensures Step(Snapshot(), r) == Exchange(cfg, old(Snapshot()), route, post)
      decreases |script|, 0
    {
      sent := sent + [Request(route, post, key)];
      if script == [] {
        return Err(TransportFailure);
      }
      var response := script[0];
      script := script[1..];
      match response
      case NoConnection =>
        r := Err(TransportFailure);
      case Reply(status, body) =>
        if status == StatusUnauthorized && cfg.mode == AloneMode {
          var e := GetToken();
          if e.Some? {
            r := Err(RenewToken(e.value));
          } else {
            r := Query(route, false);
          }
        } else if status != StatusOK {
          r := Err(BadStatus(status));
        } else {
          r := Ok(body);
        }
    }

    /** The central login; the key is assigned only on success. */
    method GetToken() returns (e: Option<Error>)
      modifies this, ctx
      ensures Step(Snapshot(), e) == Renew(cfg, old(Snapshot()))
      decreases |script|, 1
    {
      var body := Query(LoginRoute, true);
      if body.Err? {
        return Some(body.error);
      }
      match DecodeLogin(body.value)
      case None =>
        ctx.healthy := false;
        e := Some(ParseBody);
      case Some(login) =>
        if login.code == StatusOK && |login.token| > 0 {
          key := login.token;
          e := None;
        } else {
          e := Some(LoginRejected(login.code));
        }
    }

    /** One stream refresh cycle. */
    method HandleStreamCache(secs: DurationParser) returns (err: Option<Error>)
      modifies this, cache, ctx
      ensures Step(Snapshot(), err) == Cycle(cfg, old(Snapshot()), secs)
    {
      var sentinel := cache.Get(SentinelKey);
      if sentinel.Hit? {
        return None;
      }
      if sentinel.Failed? {
        return Some(CacheFailure(sentinel.message));
      }
      cache.Set(SentinelKey, NoBanned, cfg.updateInterval - 1);
      var body := Query(StreamRoute(cfg.mode == AloneMode, !ctx.healthy || ctx.isStartup), false);
      if body.Err? {
        return Some(body.error);
      }
      var decoded := DecodeStream(body.value);
      if decoded.None? {
        return Some(ParseBody);
      }
      var stream := decoded.value;
      StoreAdded(stream.added, secs);
      RemoveDeletedValues(stream.deleted);
      ctx.healthy := true;
      err := None;
    }

    /** The loop over the stream's new decisions. */
    method StoreAdded(added: seq<Decision>, secs: DurationParser)
      modifies cache
      ensures cache.State() == StoreNew(old(cache.State()), added, secs)
    {
      ghost var base := cache.State();
      var i := 0;
      while i < |added|
        modifies cache
        invariant 0 <= i <= |added|
        invariant cache.State() == StoreNew(base, added[..i], secs)
      {
        var d := added[i];
        match secs(d.duration) {
          case Some(t) => cache.Set(d.value, StreamValue(d.kind), t);
          case None =>
        }
        assert added[..i + 1][..i] == added[..i];
        i := i + 1;
      }
      assert added[..i] == added;
    }

    /** The loop over the stream's deleted decisions. */
    method RemoveDeletedValues(deleted: seq<Decision>)
      modifies cache
      ensures cache.State() == RemoveDeleted(old(cache.State()), deleted)
    {
      ghost var base := cache.State();
      var i := 0;
      while i < |deleted|
        modifies cache
        invariant 0 <= i <= |deleted|
        invariant cache.State() == RemoveDeleted(base, deleted[..i])
      {
        cache.Delete(deleted[i].value);
        assert deleted[..i + 1][..i] == deleted[..i];
        i := i + 1;
      }
      assert deleted[..i] == deleted;
    }

    /** The ticker's work: one cycle, then the health flag. */
    method HandleStreamTicker(secs: DurationParser)
      modifies this, cache, ctx
      ensures Snapshot() == Tick(cfg, old(Snapshot()), secs)
    {
      var err := HandleStreamCache(secs);
      ctx.healthy := err.None?;
    }

    /** The on-demand lookup of live and none mode. */
    method HandleNoStreamCache(ip: string, secs: DurationParser) returns (a: Answer)
      modifies this, cache, ctx
      ensures Step(Snapshot(), a) == NoStreamLookup(cfg, old(Snapshot()), ip, secs)
    {
      var value := NoBanned;
      var isLiveMode := cfg.mode == LiveMode;
      var body := Query(DecisionsRoute(ip), false);
      if body.Err? {
        return Answer(value, Some(body.error));
      }
      if body.value == Null {
        if isLiveMode {
          cache.Set(ip, value, cfg.defaultDecisionTimeout);
        }
        return Answer(value, None);
      }
      var decoded := DecodeDecisions(body.value);
      if decoded.None? {
        return Answer(value, Some(ParseBody));
      }
      var decisions := decoded.value;
      if |decisions| == 0 {
        if isLiveMode {
          cache.Set(ip, value, cfg.defaultDecisionTimeout);
        }
        return Answer(value, None);
      }
      var decision := SelectDecision(decisions);
      var duration := secs(decision.duration);
      if duration.None? {
        return Answer(value, Some(ParseDuration));
      }
      if isLiveMode {
        var durationSecond := duration.value;
        if cfg.defaultDecisionTimeout < durationSecond {
          durationSecond := cfg.defaultDecisionTimeout;
        }
        if decision.kind == "ban" {
          value := Banned;
        } else if decision.kind == "captcha" {
          value := Captcha;
        }
        cache.Set(ip, value, durationSecond);
      }
      return Answer(value, Some(BannedSignal));
    }

    /** One request through the handler. */
    method ServeHTTP(req: RequestFacts, secs: DurationParser) returns (o: Outcome)
      modifies this, cache, ctx
      ensures Step(Snapshot(), o) == Serve(cfg, old(Snapshot()), req, secs)
    {
      if !cfg.enabled {
        return Pass;
      }
      if req.remoteIP.Err? {
        return Forbidden;
      }
      var remoteIP := req.remoteIP.value;
      if req.trusted.Err? {
        return Forbidden;
      }
      if req.trusted.value {
        return Pass;
      }
      if cfg.mode != NoneMode {
        var cached := cache.Get(remoteIP);
        if cached.Failed? {
          return Forbidden;
        }
        if cached.Hit? {
          return Dispatch(cfg, cached.value, req.captchaValid, req.cookieOk, req.path);
        }
      }
      if cfg.mode == StreamMode || cfg.mode == AloneMode {
        o := if ctx.healthy then Pass else Forbidden;
      } else {
        var answer := HandleNoStreamCache(remoteIP, secs);
        o := Dispatch(cfg, answer.value, req.captchaValid, req.cookieOk, req.path);
      }
    }

    /** The startup part of construction, guarded by the ticker flag. */
    method Start(secs: DurationParser) returns (err: Option<Error>)
      modifies this, cache, ctx
      ensures Step(Snapshot(), err) == StreamSync.Start(cfg, old(Snapshot()), secs)
    {
      if (cfg.mode == StreamMode || cfg.mode == AloneMode) && !ctx.tickerStarted {
        if cfg.mode == AloneMode {
          var e := GetToken();
          if e.Some? {
            return e;
          }
        }
        HandleStreamTicker(secs);
        ctx.isStartup := false;
        ctx.tickerStarted := true;
      }
      return None;
    }
  }
}
