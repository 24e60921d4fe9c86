/** The stream refresh cycle (stream and alone mode), the ticker that records
    its health, and the startup sequence that runs the first cycle. */
module StreamSync {
  import opened Types
  import opened DecisionCache
  import opened SyncState
  import opened Transport

  /** One `New` decision applied: stored under its value for its whole seconds
      when its duration parses, skipped otherwise. */
  function StoreOne(s: CacheState, d: Decision, secs: DurationParser): CacheState
  {
    match secs(d.duration)
    case None => s
    case Some(t) => Stored(s, d.value, StreamValue(d.kind), t)
  }

  /** The `New` decisions applied in order. */
  function StoreNew(s: CacheState, ds: seq<Decision>, secs: DurationParser): (r: CacheState)
    ensures r.now == s.now && r.fault == s.fault
    ensures r.entries.Keys == s.entries.Keys + (set d | d in ds && secs(d.duration).Some? :: d.value)
    decreases |ds|
  {
    if ds == [] then s else StoreOne(StoreNew(s, ds[..|ds| - 1], secs), ds[|ds| - 1], secs)
  }

  /** The `Deleted` decisions applied in order. */
  function RemoveDeleted(s: CacheState, ds: seq<Decision>): (r: CacheState)
    ensures r.now == s.now && r.fault == s.fault
    ensures r.entries == s.entries - (set d | d in ds :: d.value)
    decreases |ds|
  {
    if ds == [] then s else Removed(RemoveDeleted(s, ds[..|ds| - 1]), ds[|ds| - 1].value)
  }

  /** A whole delta applied: first `New`, then `Deleted`. */
  function Applied(s: CacheState, st: Stream, secs: DurationParser): CacheState
  {
    RemoveDeleted(StoreNew(s, st.added, secs), st.deleted)
  }

  /** The startup hint of the stream request. */
  function StartupHint(w: World): bool
  {
    !w.healthy || w.startup
  }

  /** The world once the sentinel is written, with time to live one second short of the interval. */
  function WithSentinel(c: Config, w: World): World
  {
    w.(cache := Stored(w.cache, SentinelKey, NoBanned, c.updateInterval - 1))
  }

  /** The stream request and the decoding of its body. */
  function Fetch(c: Config, w: World, startup: bool): (r: Step<Result<Stream>>)
    ensures SameStore(w, r.world)
  {
    var q := Exchange(c, w, StreamRoute(c.mode == AloneMode, startup), false);
    if q.result.Err? then Step(q.world, Err(q.result.error))
    else match DecodeStream(q.result.value)
      case None => Step(q.world, Err(ParseBody))
      case Some(st) => Step(q.world, Ok(st))
  }

  /** One refresh cycle: nothing while the sentinel is present, the cache error
      when the sentinel read fails, and otherwise sentinel, fetch, apply. */
  function Cycle(c: Config, w: World, secs: DurationParser): (r: Step<Option<Error>>)
    ensures r.world.startup == w.startup && r.world.tickerStarted == w.tickerStarted
    ensures !Lookup(w.cache, SentinelKey).Miss? ==> r.world == w
    ensures r.result.Some? ==> r.world.cache == w.cache || r.world.cache == WithSentinel(c, w).cache
    ensures r.result.None? && Lookup(w.cache, SentinelKey).Miss? ==> r.world.healthy
  {
    match Lookup(w.cache, SentinelKey)
    case Hit(_) => Step(w, None)
    case Failed(m) => Step(w, Some(CacheFailure(m)))
    case Miss =>
      var f := Fetch(c, WithSentinel(c, w), StartupHint(w));
      if f.result.Err? then Step(f.world, Some(f.result.error))
      else Step(f.world.(cache := Applied(f.world.cache, f.result.value, secs), healthy := true), None)
  }

  /** The ticker's work: one cycle, then the health flag records whether it succeeded. */
  function Tick(c: Config, w: World, secs: DurationParser): (r: World)
    ensures r.startup == w.startup && r.tickerStarted == w.tickerStarted
    ensures Lookup(w.cache, SentinelKey).Hit? ==> r == w.(healthy := true)
    ensures Lookup(w.cache, SentinelKey).Failed? ==> r == w.(healthy := false)
  {
    var cy := Cycle(c, w, secs);
    cy.world.(healthy := cy.result.None?)
  }

  /** The startup part of construction: only in stream or alone mode and only
      while no ticker exists; alone mode logs in first and gives up on failure;
      then one cycle, the startup flag cleared, the ticker started. */
  function Start(c: Config, w: World, secs: DurationParser): (r: Step<Option<Error>>)
    ensures r.result.Some? ==> c.mode == AloneMode && !r.world.tickerStarted && r.world.startup == w.startup
    ensures r.result.None? ==> r.world.tickerStarted == (w.tickerStarted || c.mode == StreamMode || c.mode == AloneMode)
    ensures r.world.tickerStarted && !w.tickerStarted ==> !r.world.startup
  {
    if (c.mode == StreamMode || c.mode == AloneMode) && !w.tickerStarted then
      var login := if c.mode == AloneMode then Renew(c, w) else Step(w, None);
      if login.result.Some? then login
      else Step(Tick(c, login.world, secs).(startup := false, tickerStarted := true), None)
    else Step(w, None)
  }

  // ---- applying a delta ----

  lemma {:induction false} StoreNewAppend(s: CacheState, a: seq<Decision>, b: seq<Decision>, secs: DurationParser)
    ensures StoreNew(s, a + b, secs) == StoreNew(StoreNew(s, a, secs), b, secs)
    decreases |b|
  {
    if b == [] {
      assert a + b == a;
    } else {
      assert (a + b)[..|a + b| - 1] == a + b[..|b| - 1];
      assert (a + b)[|a + b| - 1] == b[|b| - 1];
      StoreNewAppend(s, a, b[..|b| - 1], secs);
    }
  }

  /** Decisions for other keys, or whose duration does not parse, leave a key's lookup as it was. */
  lemma {:induction false} StoreNewSkips(s: CacheState, ds: seq<Decision>, secs: DurationParser, k: string)
    requires forall i :: 0 <= i < |ds| ==> ds[i].value != k || secs(ds[i].duration).None?
    ensures Lookup(StoreNew(s, ds, secs), k) == Lookup(s, k)
    ensures (k in StoreNew(s, ds, secs).entries <==> k in s.entries) &&
            (k in s.entries ==> StoreNew(s, ds, secs).entries[k] == s.entries[k])
    decreases |ds|
  {
    if ds != [] {
      StoreNewSkips(s, ds[..|ds| - 1], secs, k);
    }
  }

  /** A decision whose duration does not parse is skipped and the rest still applied. */
  lemma UnparsableDecisionSkipped(s: CacheState, a: seq<Decision>, d: Decision, b: seq<Decision>, secs: DurationParser)
    requires secs(d.duration).None?
    ensures StoreNew(s, a + [d] + b, secs) == StoreNew(s, a + b, secs)
  {
    StoreNewAppend(s, a + [d], b, secs);
    StoreNewAppend(s, a, [d], secs);
    assert [d][..0] == [];
    StoreNewAppend(s, a, b, secs);
  }

  /** Right after decision `j` is applied, its key holds its value for its whole seconds. */
  lemma StoredAt(s: CacheState, ds: seq<Decision>, secs: DurationParser, j: nat, t: int)
    requires j < |ds| && secs(ds[j].duration) == Some(t)
    ensures ds[j].value in StoreNew(s, ds[..j + 1], secs).entries
    ensures StoreNew(s, ds[..j + 1], secs).entries[ds[j].value] == Entry(StreamValue(ds[j].kind), s.now + t)
  {
    assert ds[..j + 1][..j] == ds[..j];
    assert ds[..j + 1][j] == ds[j];
    var pre := StoreNew(s, ds[..j], secs);
    assert StoreNew(s, ds[..j + 1], secs) == Stored(pre, ds[j].value, StreamValue(ds[j].kind), t);
  }

  /** The last parsable `New` decision for a key decides its value and lifetime. */
  lemma LastStoredWins(s: CacheState, ds: seq<Decision>, secs: DurationParser, j: nat, t: int)
    requires j < |ds| && secs(ds[j].duration) == Some(t)
    requires forall i :: j < i < |ds| ==> ds[i].value != ds[j].value || secs(ds[i].duration).None?
    ensures ds[j].value in StoreNew(s, ds, secs).entries
    ensures StoreNew(s, ds, secs).entries[ds[j].value] == Entry(StreamValue(ds[j].kind), s.now + t)
    ensures s.fault.None? ==>
              Lookup(StoreNew(s, ds, secs), ds[j].value) == if t > 0 then Hit(StreamValue(ds[j].kind)) else Miss
  {
    var a, b := ds[..j + 1], ds[j + 1..];
    assert ds == a + b;
    StoreNewAppend(s, a, b, secs);
    StoredAt(s, ds, secs, j, t);
    forall i | 0 <= i < |b|
      ensures b[i].value != ds[j].value || secs(b[i].duration).None?
    {
      assert b[i] == ds[j + 1 + i];
    }
    StoreNewSkips(StoreNew(s, a, secs), b, secs, ds[j].value);
  }

  lemma {:induction false} RemoveDeletedElsewhere(s: CacheState, ds: seq<Decision>, k: string)
    requires forall i :: 0 <= i < |ds| ==> ds[i].value != k
    ensures Lookup(RemoveDeleted(s, ds), k) == Lookup(s, k)
    ensures (k in RemoveDeleted(s, ds).entries <==> k in s.entries) &&
            (k in s.entries ==> RemoveDeleted(s, ds).entries[k] == s.entries[k])
    decreases |ds|
  {
    if ds != [] {
      RemoveDeletedElsewhere(s, ds[..|ds| - 1], k);
    }
  }

  /** Every deleted value reads as a miss afterwards. */
  lemma {:induction false} RemoveDeletedClears(s: CacheState, ds: seq<Decision>, j: nat)
    requires s.fault.None? && j < |ds|
    ensures Lookup(RemoveDeleted(s, ds), ds[j].value) == Miss
    decreases |ds|
  {
    if j < |ds| - 1 {
      RemoveDeletedClears(s, ds[..|ds| - 1], j);
    }
  }

  /** A value both added and deleted in one delta ends absent. */
  lemma DeleteWins(s: CacheState, st: Stream, secs: DurationParser, i: nat, j: nat)
    requires s.fault.None?
    requires i < |st.added| && j < |st.deleted| && st.added[i].value == st.deleted[j].value
    ensures Lookup(Applied(s, st, secs), st.added[i].value) == Miss
  {
    RemoveDeletedClears(StoreNew(s, st.added, secs), st.deleted, j);
  }

  // ---- the cycle ----

  /** A present sentinel makes the cycle a no-op that succeeds: nothing is sent,
      the cache is untouched, and the ticker records health. */
  lemma SentinelPresentSkipsCycle(c: Config, w: World, secs: DurationParser)
    requires Lookup(w.cache, SentinelKey).Hit?
    ensures Cycle(c, w, secs) == Step(w, None)
    ensures Tick(c, w, secs) == w.(healthy := true)
  {
  }

  /** A failed sentinel read is returned unchanged and the ticker records ill health. */
  lemma SentinelFailurePropagates(c: Config, w: World, secs: DurationParser)
    requires w.cache.fault.Some?
    ensures Cycle(c, w, secs) == Step(w, Some(CacheFailure(w.cache.fault.value)))
    ensures Tick(c, w, secs) == w.(healthy := false)
  {
  }

  /** On a sentinel miss the very next request is the stream request with the
      startup hint `!healthy || startup`, sent after the sentinel was written;
      when the cycle fails the sentinel is the only cache change. */
  lemma MissWritesSentinelThenFetches(c: Config, w: World, secs: DurationParser)
    requires Lookup(w.cache, SentinelKey).Miss?
    ensures var r := Cycle(c, w, secs);
            && |w.sent| < |r.world.sent|
            && r.world.sent[|w.sent|] == Request(StreamRoute(c.mode == AloneMode, !w.healthy || w.startup), false, w.key)
            && (r.result.Some? ==> r.world.cache == WithSentinel(c, w).cache && !Tick(c, w, secs).healthy)
  {
    ExchangeTrace(c, WithSentinel(c, w), StreamRoute(c.mode == AloneMode, StartupHint(w)), false);
    assert (w.sent + [Request(StreamRoute(c.mode == AloneMode, StartupHint(w)), false, w.key)])[|w.sent|]
           == Request(StreamRoute(c.mode == AloneMode, StartupHint(w)), false, w.key);
  }

  /** A successful cycle applies the delta on top of the sentinel and sets health. */
  lemma SuccessfulCycleApplies(c: Config, w: World, secs: DurationParser)
    requires Lookup(w.cache, SentinelKey).Miss?
    requires Fetch(c, WithSentinel(c, w), StartupHint(w)).result.Ok?
    ensures var r := Cycle(c, w, secs);
            var st := Fetch(c, WithSentinel(c, w), StartupHint(w)).result.value;
            && r.result.None?
            && r.world.cache == Applied(WithSentinel(c, w).cache, st, secs)
            && Tick(c, w, secs).healthy
  {
  }

  /** The fetched delta, when the cycle gets that far, leaves the sentinel key alone. */
  predicate DeltaSparesSentinel(c: Config, w: World)
  {
    var f := Fetch(c, WithSentinel(c, w), StartupHint(w));
    f.result.Ok? ==>
      (forall i :: 0 <= i < |f.result.value.added| ==> f.result.value.added[i].value != SentinelKey) &&
      (forall i :: 0 <= i < |f.result.value.deleted| ==> f.result.value.deleted[i].value != SentinelKey)
  }

  /** A tick that found no sentinel leaves the sentinel entry it wrote in place. */
  lemma TickLeavesSentinel(c: Config, w: World, secs: DurationParser)
    requires Lookup(w.cache, SentinelKey).Miss?
    requires DeltaSparesSentinel(c, w)
    ensures var w1 := Tick(c, w, secs);
            && w1.cache.now == w.cache.now && w1.cache.fault == w.cache.fault
            && SentinelKey in w1.cache.entries
            && w1.cache.entries[SentinelKey] == Entry(NoBanned, w.cache.now + c.updateInterval - 1)
  {
    var ws := WithSentinel(c, w);
    var f := Fetch(c, ws, StartupHint(w));
    assert f.world.cache == ws.cache;
    if f.result.Ok? {
      var st := f.result.value;
      StoreNewSkips(f.world.cache, st.added, secs, SentinelKey);
      RemoveDeletedElsewhere(StoreNew(f.world.cache, st.added, secs), st.deleted, SentinelKey);
    }
  }

  /** Two ticks less than `updateInterval - 1` seconds apart fetch the stream
      once: the second finds the sentinel and sends nothing. */
  lemma SecondTickWithinWindowSkipsFetch(c: Config, w: World, secs: DurationParser, dt: nat)
    requires w.cache.fault.None? && Lookup(w.cache, SentinelKey).Miss?
    requires dt < c.updateInterval - 1
    requires DeltaSparesSentinel(c, w)
    ensures var w1 := Tick(c, w, secs);
            var w2 := w1.(cache := Elapsed(w1.cache, dt));
            && |w1.sent| > |w.sent|
            && Cycle(c, w2, secs) == Step(w2, None)
  {
    MissWritesSentinelThenFetches(c, w, secs);
    TickLeavesSentinel(c, w, secs);
    var w1 := Tick(c, w, secs);
    var w2 := w1.(cache := Elapsed(w1.cache, dt));
    assert Lookup(w2.cache, SentinelKey) == Hit(NoBanned);
  }

  // ---- startup ----

  /** Once a ticker exists, or outside stream and alone mode, construction runs no cycle. */
  lemma StartGuardedByTicker(c: Config, w: World, secs: DurationParser)
    requires w.tickerStarted || !(c.mode == StreamMode || c.mode == AloneMode)
    ensures Start(c, w, secs) == Step(w, None)
  {
  }

  /** The first construction in stream mode runs one cycle asking for the full
      decision list, then clears the startup flag and starts the ticker. */
  lemma FirstStartRequestsFullList(c: Config, w: World, secs: DurationParser)
    requires c.mode == StreamMode && !w.tickerStarted && w.startup
    requires Lookup(w.cache, SentinelKey).Miss?
    ensures var r := Start(c, w, secs);
            && r.result.None?
            && r.world.sent[|w.sent|] == Request(StreamRoute(false, true), false, w.key)
            && !r.world.startup && r.world.tickerStarted
  {
    MissWritesSentinelThenFetches(c, w, secs);
  }

  /** In alone mode a failed first login aborts construction: no cycle runs, the
      ticker is not started and the startup flag stays set. */
  lemma AloneStartStopsOnLoginFailure(c: Config, w: World, secs: DurationParser)
    requires c.mode == AloneMode && !w.tickerStarted
    requires Renew(c, w).result.Some?
    ensures var r := Start(c, w, secs);
            && r == Renew(c, w)
            && !r.world.tickerStarted && r.world.startup == w.startup && r.world.cache == w.cache
  {
  }

  /** After startup the hint asks for the full list only when the stream is unhealthy. */
  lemma LaterHintFollowsHealth(c: Config, w: World, secs: DurationParser)
    requires c.mode == StreamMode && !w.tickerStarted
    ensures var w1 := Start(c, w, secs).world;
            StartupHint(w1) == !w1.healthy
  {
  }
}
