/** Everything the synchronisation logic reads and writes, as one value: the
    cache, the credential sent to the decision source, the process-wide health
    and startup flags, whether the refresh ticker exists, and the conversation
    with the decision source (the replies it will give, in order, and the
    requests sent so far). */
module SyncState {
  import opened Types
  import opened DecisionCache

  datatype World = World(cache: CacheState, key: string, healthy: bool, startup: bool,
                         tickerStarted: bool, script: seq<Response>, sent: seq<Request>)

  /** The world after an operation, together with what the operation returned. */
  datatype Step<T> = Step(world: World, result: T)

  /** The two worlds agree on everything but the conversation, the key and the health flag. */
  predicate SameStore(w: World, w': World)
  {
    w'.cache == w.cache && w'.startup == w.startup && w'.tickerStarted == w.tickerStarted
  }
}
