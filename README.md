# Decision logic of the CrowdSec bouncer middleware

A Dafny model of the decision logic in `bouncer.go`, the Traefik middleware that asks a CrowdSec decision source whether
to let a request through, refuse it with 403, or show a captcha. The model covers four parts:

- **Request verdict pipeline** (`ServeHTTP`, `handleRemediation`). The handler runs a fixed chain of early exits: the enabled
  switch, client-address extraction, the trusted-client test, the cache read, and then the miss handling for each mode.
  `Remediation.Verdict` models this chain as a pure function of abstract inputs. `RequestPath.Serve` runs it against the
  whole state, so that the live lookup's cache write can be followed.
- **Stream refresh cycle** (`handleStreamCache`, `handleStreamTicker`, and the startup block of `New`). The cycle reads the
  sentinel key `"updated"`, writes the sentinel, fetches the delta, applies `New` and then `Deleted`, and sets the
  health flag.
- **Live/none lookup** (`handleNoStreamCache`). It chooses one decision from the list, caps the TTL at the default decision
  time, maps the decision type to a cache value, and writes the cache in live mode only.
- **Token renewal** (`getToken`) and the status branching of `crowdsecQuery`, including the 401 re-login and retry.

The state of the process is one value, `SyncState.World`. It holds:

- the cache (entries with expiry stamps, a clock, and an optional backend fault);
- the credential;
- the three package globals: `isStartup`, `isCrowdsecStreamHealthy`, and `ticker` (kept only as "started or not");
- the conversation with the decision source: the replies it will give, in order, and the requests sent so far.

Each source function has a specification function `World -> Step(World, result)`. The classes in module `Plugin`
(`Context` for the globals, `Bouncer` for the middleware) follow the source statement by statement. Each method is proved
to move the world exactly as its specification function says. The lemmas state the properties of those functions.

Several things enter as inputs:

- The HTTP call is the next scripted reply. A call with no reply left fails like a transport error.
- `json.Unmarshal` is abstracted by the shape of the JSON document: `null`, stream object, decision array, login object,
  or malformed text. An object decodes into any struct and keeps only the fields that struct knows; decoding an array
  into a struct fails.
- `int64(time.ParseDuration(s).Seconds())` is an opaque partial function `secs: string -> Option<int>`.
- Client-address extraction, the trusted-client test, `captchaClient.Valid` and `CheckCookie` are the fields of
  `Remediation.RequestFacts`.

## Model

| member | source | states |
|---|---|---|
| `DecisionCache.Lookup` | bouncer.go:217 | A read is the backend error exactly while the backend fails. It is a hit exactly when the key is present and the clock is below its expiry stamp, and the hit carries the stored value. Otherwise it is the distinguished miss. |
| `DecisionCache.Stored` | bouncer.go:450 | After a write, the key reads back as the written value while its TTL is positive. A TTL of zero or less reads as a miss, and a failing backend reads as its error. No other key changes. |
| `DecisionCache.Removed` | bouncer.go:454 | After a delete, the key reads as a miss (or as the backend error), and no other key changes. |
| `DecisionCache.Elapsed` | bouncer.go:422 | Assumed storage contract: an entry stays readable until the clock reaches its expiry stamp and is a miss from then on. Time passing never makes a missing key appear. |
| `DecisionCache.StoredExpiresAfterTtl` | bouncer.go:339 | A value written with TTL `ttl` reads back exactly while less than `ttl` seconds have passed. |
| `DecisionCache.Cache.constructor` | bouncer.go:144 | A new cache client starts empty and healthy. |
| `DecisionCache.Cache.Get` | bouncer.go:217 | A read returns a value, the distinguished miss, or the backend error, as the abstract state says. |
| `DecisionCache.Cache.Set` | bouncer.go:422 | The object's new state is `Stored` of its old state. |
| `DecisionCache.Cache.Delete` | bouncer.go:454 | The object's new state is `Removed` of its old state. |
| `Remediation.Dispatch` | bouncer.go:275-294 | 403 exactly for `banned`, and for `captcha` when the provider is invalid and the fallback is `"ban"`. The challenge page exactly for a remaining `captcha` with no valid cookie and a path other than `/favicon.ico`. Every other value passes, including `""` and the not-banned value. |
| `Remediation.Verdict` | bouncer.go:189-245 | The chain in order: disabled passes; an extraction or trusted-check error gives 403; a trusted client passes; outside none mode a cache error gives 403 and a cache hit is dispatched; a stream/alone miss passes exactly when healthy and never challenges; a none-mode request or a live-mode miss dispatches the lookup value. |
| `Remediation.FallbackIsBan` | bouncer.go:276-278 | A `captcha` value with an invalid provider and fallback `"ban"` is dispatched exactly like `banned` (403), whatever the cookie and the path. |
| `Remediation.FaviconNeverChallenged` | bouncer.go:287 | The favicon path is never sent the challenge page. |
| `Remediation.TrustedClientAlwaysPasses` | bouncer.go:208-213 | A trusted client passes whatever the cache, the health flag or the lookup say. |
| `Remediation.NoneModeIgnoresCache` | bouncer.go:216 | In none mode the cache result has no influence on the outcome. |
| `Remediation.StreamingNeverUsesLiveLookup` | bouncer.go:232-239 | In stream and alone mode the live lookup has no influence on the outcome. |
| `Transport.Exchange` | bouncer.go:474-487 | Every call consumes at least one scripted reply, so the 401 recursion ends. The call leaves the cache and the startup and ticker flags alone, and it can only lower health. |
| `Transport.ExchangeTrace` | bouncer.go:474-487 | A call's own request, carrying the key held before the call, is the next one recorded. The key it ends with is the old key or a token some login reply in the script granted. A successful login body can grant only tokens the script granted. |
| `Transport.ExchangeKeepsReplies` | bouncer.go:474-487 | Every reply left after a call was already in the script. A successful result is exactly the body of a 200 reply that was in the script. |
| `Transport.RenewKeepsReplies` | bouncer.go:385-407 | Every reply left after a login was already in the script. |
| `Transport.Renew` | bouncer.go:385-407 | Success leaves a non-empty key. Renewal consumes a reply, leaves the cache and flags alone, and can only lower health. |
| `Transport.RenewTrace` | bouncer.go:385-407 | The login POST, carrying the old key, is the next request recorded. The key afterwards is the old key or a token some login reply granted. |
| `Transport.SingleExchange` | bouncer.go:479-487 | When the first reply is not a 401 in alone mode, a call is one request and one reply. The reply maps to the body on 200, or to a status or transport error otherwise. Outside alone mode this includes a 401. |
| `Transport.RenewReplacesKeyOnlyOnSuccess` | bouncer.go:395-406 | For a direct login reply: the call succeeds exactly when the body decodes to code 200 with a non-empty token, and the key becomes that token exactly then. Otherwise the key is unchanged. A body that does not decode clears health. |
| `Transport.NestedRenewalKeepsInnerToken` | bouncer.go:479-483 | A 401 to the login triggers an inner login. If that succeeds and the repeated login call then fails, renewal reports the error with the key already replaced. |
| `Transport.UnauthorizedRepeats` | bouncer.go:479-484 | In alone mode, a 401 whose renewal succeeds turns the call into the same call again, as a GET, from the world the renewal left. |
| `Transport.ReloginStep` | bouncer.go:479-484 | A 401 answered by a successful login is the same call again as a GET. It holds the new token and two more recorded requests: the original call and the login POST with the old key. |
| `Transport.RetryAfterRelogin` | bouncer.go:479-484 | In alone mode, a 401 followed by a successful login leads to a re-sent call. The third request is the same route as a GET (even for the login POST), carrying the new token, and its reply is the result. |
| `Transport.RetriesAreUnbounded` | bouncer.go:479-484 | For any `n`, `n` rounds of 401 each followed by a successful login still end in success after `2n+1` requests: there is no retry bound. |
| `Types.StreamValue` | bouncer.go:442-449 | The stream cycle stores `banned` exactly for `"ban"` and `captcha` exactly for `"captcha"`. Every other decision type stores `""`. |
| `Types.LiveValue` | bouncer.go:372-379 | The live lookup maps `banned` exactly for `"ban"` and `captcha` exactly for `"captcha"`. Every other decision type keeps the not-banned value. |
| `Types.DecodeStream` | bouncer.go:434 | Decoding the stream body fails exactly for an array or malformed text. A stream object decodes to itself, and `null` or another object decodes to the empty delta. |
| `Types.DecodeDecisions` | bouncer.go:345 | Decoding the decision list fails exactly for a body that is neither an array nor `null`. An array decodes to its decisions, and `null` to the empty list. |
| `Types.DecodeLogin` | bouncer.go:396 | Decoding the login body fails exactly for an array or malformed text. A login object decodes to itself, and `null` or another object decodes to the zero login (code 0, empty token). |
| `StreamSync.StoreNew` | bouncer.go:438-452 | Applying `New` keeps the clock and the backend fault. The keys afterwards are the old keys plus the value of every decision whose duration parses. |
| `StreamSync.RemoveDeleted` | bouncer.go:453-455 | Applying `Deleted` keeps the clock and the backend fault. |
| `StreamSync.Fetch` | bouncer.go:423-437 | The stream request and decoding touch neither the cache nor the startup and ticker flags. |
| `StreamSync.StoreNewAppend` | bouncer.go:438 | Applying `New` decisions in order is a left fold: applying `a + b` is applying `a` and then `b`. |
| `StreamSync.StoreNewSkips` | bouncer.go:439-451 | Decisions for other keys, or whose duration fails to parse, leave a key's entry as it was. |
| `StreamSync.UnparsableDecisionSkipped` | bouncer.go:439-440 | A decision whose duration does not parse is skipped and the rest of the list is still applied. |
| `StreamSync.StoredAt` | bouncer.go:439-450 | Right after a parsable decision is applied, its value is stored with its mapped cache value and expiry `now + seconds`. |
| `StreamSync.LastStoredWins` | bouncer.go:441-450 | The last parsable `New` decision for a key decides its entry. The entry holds `banned` for `"ban"`, `captcha` for `"captcha"` and `""` otherwise, and it expires at `now + seconds`. With a healthy backend it reads back as that value while the whole-second TTL is positive, and as a miss otherwise. |
| `StreamSync.RemoveDeletedElsewhere` | bouncer.go:453-455 | Deletions of other keys leave a key's entry as it was. |
| `StreamSync.RemoveDeletedClears` | bouncer.go:453-455 | Every value in `Deleted` reads as a miss afterwards. |
| `StreamSync.DeleteWins` | bouncer.go:438-455 | A value in both `New` and `Deleted` ends absent. |
| `StreamSync.Cycle` | bouncer.go:409-459 | A cycle never touches the startup or ticker flags. It changes nothing unless the sentinel read is a miss. A failed cycle leaves the cache as it was, or with only the sentinel written. A successful cycle that fetched sets health. |
| `StreamSync.Tick` | bouncer.go:296-303 | The ticker never touches the startup or ticker flags. With the sentinel present it only sets health to true. When the sentinel read fails it only sets health to false. |
| `StreamSync.Start` | bouncer.go:168-180 | Only the alone-mode login can make startup fail, and then no ticker starts and `isStartup` is kept. Otherwise the ticker exists afterwards exactly when it existed before or the mode is stream or alone. A ticker started here clears `isStartup`. |
| `StreamSync.SentinelPresentSkipsCycle` | bouncer.go:414-418 | With the sentinel present, the cycle sends nothing, changes nothing and succeeds, and the ticker sets health to true. |
| `StreamSync.SentinelFailurePropagates` | bouncer.go:419-421 | A sentinel read error other than a miss comes back unchanged with nothing else done, and the ticker sets health to false. |
| `StreamSync.MissWritesSentinelThenFetches` | bouncer.go:422-432 | On a sentinel miss the next request is the stream request with `startup = !healthy \|\| isStartup`. If the cycle fails, the sentinel write (TTL `updateInterval-1`) is its only cache change, and the ticker clears health. |
| `StreamSync.SuccessfulCycleApplies` | bouncer.go:433-458 | A decoded delta is applied on top of the sentinel, `New` first and then `Deleted`, and the cycle and ticker set health to true. |
| `StreamSync.TickLeavesSentinel` | bouncer.go:422-455 | A tick that found no sentinel leaves the entry `NoBanned` with expiry `now + updateInterval - 1`, when the delta does not name the sentinel key. |
| `StreamSync.SecondTickWithinWindowSkipsFetch` | bouncer.go:409-422 | Two ticks less than `updateInterval-1` seconds apart fetch the stream once: the second finds the sentinel and sends nothing. |
| `StreamSync.StartGuardedByTicker` | bouncer.go:168 | Once a ticker exists, or in live and none mode, construction runs no cycle and changes nothing. |
| `StreamSync.FirstStartRequestsFullList` | bouncer.go:168-180 | The first stream-mode construction runs one cycle whose request asks for `startup=true`, then clears `isStartup` and starts the ticker. |
| `StreamSync.AloneStartStopsOnLoginFailure` | bouncer.go:169-174 | In alone mode a failed first login is returned: no cycle runs, no ticker is started and `isStartup` stays as it was. |
| `StreamSync.LaterHintFollowsHealth` | bouncer.go:176 | After the startup sequence the hint asks for the full list exactly when the stream is unhealthy. |
| `LiveLookup.ChosenIndex` | bouncer.go:355-361 | The chosen index is the first `"ban"`. When there is no ban it is the last element. |
| `LiveLookup.ChosenIsFirstBanElseLast` | bouncer.go:355-361 | The chosen decision is a ban exactly when the list holds one. Otherwise it is the last, not the first. |
| `LiveLookup.SelectDecision` | bouncer.go:355-361 | The selection loop returns the decision at `ChosenIndex`. |
| `LiveLookup.NoStreamLookup` | bouncer.go:323-383 | Outside live mode the cache is untouched and the value is the not-banned value. Any other value comes with the `"banned"` error. |
| `LiveLookup.NoneModeNeverCaches` | bouncer.go:367-382 | In none mode the lookup never writes the cache and always returns the not-banned value. |
| `LiveLookup.FailedCallIsNotBanned` | bouncer.go:332-335 | A failed call writes nothing and returns the not-banned value with the call's error. |
| `LiveLookup.EmptyAnswerCachesNotBanned` | bouncer.go:337-354 | In live mode, a `null` body or an empty list caches the not-banned value for `defaultDecisionTimeout` and returns it without error. |
| `LiveLookup.DecisionIsCachedWithCappedTtl` | bouncer.go:362-382 | In live mode the chosen decision's mapped value (banned, captcha or not banned) is cached with TTL `min(defaultDecisionTimeout, seconds)` and returned with the `"banned"` error. |
| `LiveLookup.UnparsableDurationWritesNothing` | bouncer.go:362-365 | A chosen decision whose duration fails to parse gives the parse error and no cache write. |
| `RequestPath.Serve` | bouncer.go:189-245 | A request that does not reach the live lookup changes nothing. Only live mode can change the cache. |
| `RequestPath.StreamMissFollowsHealth` | bouncer.go:232-239 | In stream and alone mode, an unresolved request passes exactly when the stream is healthy, and the decision source is not asked. |
| `RequestPath.FailedLookupLetsRequestThrough` | bouncer.go:240-244 | In live and none mode a transport failure of the lookup lets the request pass, because the lookup error is discarded. |
| `RequestPath.NoneModePassesBannedAddress` | bouncer.go:240-244 | In none mode a request passes, and nothing is cached, even when the decision source returns a ban. |
| `RequestPath.LiveBanIsServedFromCacheAfterwards` | bouncer.go:216-244 | In live mode a returned ban is refused and cached. Within its capped TTL the next request is refused from the cache with no new request. |
| `RequestPath.LiveOtherDecisionPasses` | bouncer.go:372-382 | In live mode a chosen decision of an unknown type lets the request pass, even though the lookup returns its `"banned"` error. |
| `Plugin.Context.constructor` | bouncer.go:36-40 | The globals start as `isStartup = true`, healthy, and no ticker. |
| `Plugin.Bouncer.constructor` | bouncer.go:112-146 | A new bouncer has the given settings, cache, globals and key, and has sent nothing yet. |
| `Plugin.Bouncer.Query` | bouncer.go:461-487 | The call moves the world exactly as `Exchange` does. |
| `Plugin.Bouncer.GetToken` | bouncer.go:385-407 | The call moves the world exactly as `Renew` does. |
| `Plugin.Bouncer.HandleStreamCache` | bouncer.go:409-459 | The loops over `New` and `Deleted` move the world exactly as `Cycle` does. |
| `Plugin.Bouncer.StoreAdded` | bouncer.go:438-452 | The loop over `New` leaves the cache in the state `StoreNew` gives. |
| `Plugin.Bouncer.RemoveDeletedValues` | bouncer.go:453-455 | The loop over `Deleted` leaves the cache in the state `RemoveDeleted` gives. |
| `Plugin.Bouncer.HandleStreamTicker` | bouncer.go:296-303 | The world becomes `Tick` of the old world: one cycle, then health is set to whether it succeeded. |
| `Plugin.Bouncer.HandleNoStreamCache` | bouncer.go:323-383 | The selection loop and cache write move the world exactly as `NoStreamLookup` does. |
| `Plugin.Bouncer.ServeHTTP` | bouncer.go:189-245 | The outcome and the new world are those of `Serve`. |
| `Plugin.Bouncer.Start` | bouncer.go:168-180 | The startup block moves the world exactly as `StreamSync.Start` does. |

## Behaviour worth noting

These properties of the code are easy to miss, and each has a lemma:

- **Decision choice.** When no decision is a ban, the live lookup picks the last decision, not the first
  (`LiveLookup.ChosenIsFirstBanElseLast`).
- **The `"banned"` error is discarded.** The request path ignores that error, so only the cached value decides. A
  decision of unknown type therefore passes (`RequestPath.LiveOtherDecisionPasses`). A transport failure in live or none
  mode also passes: the lookup is fail-open (`RequestPath.FailedLookupLetsRequestThrough`).
- **None mode** never caches and passes every untrusted request that it does not refuse earlier
  (`RequestPath.NoneModePassesBannedAddress`).
- **The 401 retry has no bound.** Every successful re-login is followed by another attempt (`Transport.RetriesAreUnbounded`).
  The repeated call always goes out as a GET, including a repeated login. A renewal nested inside a renewal can replace
  the key and still report an error (`Transport.NestedRenewalKeepsInnerToken`).
- **The sentinel shares a namespace with client addresses.** A stream decision whose value is `"updated"` overwrites or
  deletes the sentinel. So `StreamSync.SecondTickWithinWindowSkipsFetch` holds only for deltas that do not name that key.

## Left out

- HTTP transport is not modelled: the client, URL building, header names, reading and closing the body, and TLS. Each call
  is one scripted reply; the request records only its route, whether it is a POST, and the credential sent. A script that
  runs out acts like a transport failure, and that is the only bound on the 401 retry recursion.
- The login request body (machine id, password, scenarios, built with `Sprintf` without escaping) is not modelled.
- The ticker goroutine, the fire-and-forget `go work()`, the stop channel, and overlapping cycles are concurrency. Only the
  `ticker == nil` guard is kept, as the `tickerStarted` flag.
- `time.ParseDuration` and the float `Seconds()` with its `int64` truncation are an opaque parser returning whole seconds.
  Integer widths are unbounded: `updateInterval - 1` and the expiry stamps cannot overflow in the model.
- The cache backend (`pkg/cache`, Redis or local) is not part of this model. Its expiry behaviour is the assumed contract of
  `DecisionCache.Elapsed`: a TTL of zero or less counts as immediately expired. A backend fault affects reads only; writes
  and deletes always take effect.
- The actual strings of the cache package's constants are not part of this model. The model assumes that `banned`,
  `captcha` and the not-banned value are distinct from each other and from `""`.
- The captcha client (`CheckCookie` and its side effects, `ServeHTTP`, rendering, `Valid`), the `ip` package, and the
  `configuration` package are inputs or left out. This includes parameter validation, the TLS and API-key setup, and the
  per-mode host and interval settings in `New`. Mode selects only the stream route's `central` flag here.
- Logging is not modelled.
