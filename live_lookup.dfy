/** The on-demand lookup of live and none mode: ask the decision source about
    one address, choose one decision, and (in live mode only) cache its value. */
module LiveLookup {
  import opened Types
  import opened DecisionCache
  import opened SyncState
  import opened Transport

  /** The index the selection loop stops at: the first "ban", or else the last decision. */
  function ChosenIndex(ds: seq<Decision>): (k: nat)
    requires |ds| > 0
    ensures k < |ds|
    ensures forall j :: 0 <= j < k ==> ds[j].kind != "ban"
    ensures ds[k].kind == "ban" || k == |ds| - 1
    decreases |ds|
  {
    if ds[0].kind == "ban" || |ds| == 1 then 0 else 1 + ChosenIndex(ds[1..])
  }

  /** The choice is the first ban when there is one, and the last decision only when there is none. */
  lemma ChosenIsFirstBanElseLast(ds: seq<Decision>)
    requires |ds| > 0
    ensures (exists i :: 0 <= i < |ds| && ds[i].kind == "ban") <==> ds[ChosenIndex(ds)].kind == "ban"
    ensures ds[ChosenIndex(ds)].kind != "ban" ==> ChosenIndex(ds) == |ds| - 1
  {
    var k := ChosenIndex(ds);
    if ds[k].kind != "ban" {
      forall i | 0 <= i < |ds|
        ensures ds[i].kind != "ban"
      {
        if i < k {
          assert ds[i].kind != "ban";
        }
      }
    }
  }

  /** The zero value of a decision, which the selection loop starts from. */
  const ZeroDecision := Decision(0, "", "", "", "", "", "", false)

  /** The selection loop over the returned list. */
  method SelectDecision(ds: seq<Decision>) returns (d: Decision)
    requires |ds| > 0
    ensures d == ds[ChosenIndex(ds)]
  {
    d := ZeroDecision;
    var i := 0;
    while i < |ds|
      invariant 0 <= i <= |ds|
      invariant forall j :: 0 <= j < i ==> ds[j].kind != "ban"
      invariant 0 < i ==> d == ds[i - 1]
    {
      d := ds[i];
      if d.kind == "ban" {
        break;
      }
      i := i + 1;
    }
  }

  /** The value the lookup returns and the error that comes with it. */
  datatype Answer = Answer(value: Value, error: Option<Error>)

  /** The world after caching `v` for `ip` with time to live `ttl`, in live mode only. */
  function CacheIfLive(c: Config, w: World, ip: string, v: Value, ttl: int): World
  {
    if c.mode == LiveMode then w.(cache := Stored(w.cache, ip, v, ttl)) else w
  }

  /** One lookup. No decision (`null` or an empty list) caches NoBanned for the
      default decision time; otherwise the chosen decision's value is cached for
      its duration, capped at the default decision time, and the "banned" error
      is returned. In none mode nothing is cached and the value stays NoBanned. */
  function NoStreamLookup(c: Config, w: World, ip: string, secs: DurationParser): (r: Step<Answer>)
    ensures SameStore(w, r.world) || c.mode == LiveMode
    ensures c.mode != LiveMode ==> r.result.value == NoBanned
    ensures r.result.value != NoBanned ==> r.result.error == Some(BannedSignal)
  {
    var q := Exchange(c, w, DecisionsRoute(ip), false);
    if q.result.Err? then Step(q.world, Answer(NoBanned, Some(q.result.error)))
    else if q.result.value == Null then
      Step(CacheIfLive(c, q.world, ip, NoBanned, c.defaultDecisionTimeout), Answer(NoBanned, None))
    else match DecodeDecisions(q.result.value)
      case None => Step(q.world, Answer(NoBanned, Some(ParseBody)))
      case Some(ds) =>
        if |ds| == 0 then
          Step(CacheIfLive(c, q.world, ip, NoBanned, c.defaultDecisionTimeout), Answer(NoBanned, None))
        else
          var d := ds[ChosenIndex(ds)];
          match secs(d.duration)
          case None => Step(q.world, Answer(NoBanned, Some(ParseDuration)))
          case Some(t) =>
            var v := if c.mode == LiveMode then LiveValue(d.kind) else NoBanned;
            Step(CacheIfLive(c, q.world, ip, v, Min(c.defaultDecisionTimeout, t)), Answer(v, Some(BannedSignal)))
  }

  /** In none mode the lookup never writes the cache and never reports anything but NoBanned. */
  lemma NoneModeNeverCaches(c: Config, w: World, ip: string, secs: DurationParser)
    requires c.mode == NoneMode
    ensures NoStreamLookup(c, w, ip, secs).world.cache == w.cache
    ensures NoStreamLookup(c, w, ip, secs).result.value == NoBanned
  {
  }

  /** A failed call (transport, status, renewal) writes nothing and reports NoBanned with the error. */
  lemma FailedCallIsNotBanned(c: Config, w: World, ip: string, secs: DurationParser)
    requires Exchange(c, w, DecisionsRoute(ip), false).result.Err?
    ensures var r := NoStreamLookup(c, w, ip, secs);
            && r.world.cache == w.cache
            && r.result == Answer(NoBanned, Some(Exchange(c, w, DecisionsRoute(ip), false).result.error))
  {
  }

  /** Live mode, no decision in the answer: NoBanned is cached for the default decision time. */
  lemma EmptyAnswerCachesNotBanned(c: Config, w: World, ip: string, secs: DurationParser, b: Body)
    requires c.mode == LiveMode && w.script != [] && w.script[0] == Reply(StatusOK, b)
    requires b == Null || b == DecisionList([])
    ensures var r := NoStreamLookup(c, w, ip, secs);
            && r.result == Answer(NoBanned, None)
            && r.world.cache == Stored(w.cache, ip, NoBanned, c.defaultDecisionTimeout)
            && r.world.sent == w.sent + [Request(DecisionsRoute(ip), false, w.key)]
  {
    SingleExchange(c, w, DecisionsRoute(ip), false);
  }

  /** Live mode, some decisions: the chosen one's value is cached for
      min(default decision time, its seconds) and returned with the "banned" error. */
  lemma DecisionIsCachedWithCappedTtl(c: Config, w: World, ip: string, secs: DurationParser,
                                      ds: seq<Decision>, t: int)
    requires c.mode == LiveMode && w.script != [] && w.script[0] == Reply(StatusOK, DecisionList(ds))
    requires |ds| > 0 && secs(ds[ChosenIndex(ds)].duration) == Some(t)
    ensures var r := NoStreamLookup(c, w, ip, secs);
            var v := LiveValue(ds[ChosenIndex(ds)].kind);
            && r.result == Answer(v, Some(BannedSignal))
            && r.world.cache == Stored(w.cache, ip, v, Min(c.defaultDecisionTimeout, t))
  {
    SingleExchange(c, w, DecisionsRoute(ip), false);
    var q := Exchange(c, w, DecisionsRoute(ip), false);
    assert q.result == Ok(DecisionList(ds)) && q.world.cache == w.cache;
  }

  /** A chosen decision whose duration does not parse is an error with no cache write. */
  lemma UnparsableDurationWritesNothing(c: Config, w: World, ip: string, secs: DurationParser, ds: seq<Decision>)
    requires c.mode == LiveMode && w.script != [] && w.script[0] == Reply(StatusOK, DecisionList(ds))
    requires |ds| > 0 && secs(ds[ChosenIndex(ds)].duration).None?
    ensures var r := NoStreamLookup(c, w, ip, secs);
            && r.result == Answer(NoBanned, Some(ParseDuration))
            && r.world.cache == w.cache
  {
    SingleExchange(c, w, DecisionsRoute(ip), false);
  }
}
