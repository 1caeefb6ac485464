# Verified model of the platform services

Dafny models of the stateful cores of the platform, and proofs about all their inputs, runs and
interleavings. `dafny verify dfyconfig.toml` checks the whole project.

| files | what they model |
|---|---|
| `TokenBucket`, `RecencyTable`, `IpTable`, `RateRuns`, `RateAgreement`, `RateSharpness`, `RateExact`, `GatewayLimits` | the gateway's per-IP rate limiter: token bucket, LRU table as a value and as map plus linked ring updated in place, timed runs, the exact decision by counts and times, the middleware with its two tables |
| `WsSession`, `WsTeardown`, `WsEndings`, `WsAdmission` | one WebSocket handler with its goroutines and callbacks as interleaved steps; its deferred teardown; what ends it and what it owes its client; any number of handlers under the global limit |
| `XwsRegistry` | the xws session registry: opening, messages, timers, disconnects and shutdown racing under two kinds of mutex |
| `XhttpKeys`, `XhttpStore`, `XhttpLaws`, `XhttpRaces`, `XhttpSolo` | the xhttp handlers with their cache: one at a time against a server with no cache, what was written being what is read, and interleaved statement by statement |
| `Base64Url`, `Jwt`, `XauthTokens`, `XauthSteps`, `XauthReuse` | compact tokens (section 7.1 of RFC 7515, HS256 of section 3.2 of RFC 7518, base64url of section 5 of RFC 4648), the xauth handlers one at a time, their store operations interleaved, and when one refresh token is exchanged more than once |
| `Routing`, `RetryLoop` | the gateway's path-to-subject mapping and its bounded retry loop |
| `Options`, `Text`, `Decimals` | a value that may be missing; splitting, joining, decimal numerals |

Code that works in place is modelled in place: the IP table (`IpTables.IpTable`, with real nodes
and map), the two-table limiter, the xhttp server, the xauth server, the loops of `route` and of
the request retry. Each such method is proved against a function on values, and the main results
are lemmas about those functions over whole runs. Concurrent protocols are state machines whose
steps are single lock operations, checks, socket calls, statements or store operations; their
results hold for every interleaving.

## Assumptions

- Rate limiter: `rate.Limiter` is a token bucket over the reals; `get` and the `Allow` on what it
  returned happen at one instant of a monotone clock; settings have passed `validateRateLimit`
  (internal/services/gateway/config.go:193-215).
- WebSocket: the client library starts a message callback only while subscribed, possibly several
  at a time, and may run it after the unsubscribe; the server's cancellation may reach the session
  at any later time; ReadMessage and WriteMessage return with any result.
- xws: a session id is opened at most once (the gateway draws 64 random bits for each connection);
  `inSub` is set before the timer can fire or a message can arrive; a message may still be
  delivered after Unsubscribe.
- xhttp: JSON of an item or of a list decodes to the same item or list and is never empty; serials
  only grow and may leave gaps. In `XhttpStore` a failed statement changed nothing; `XhttpRaces`
  also lets a statement commit while its handler sees an error. The two exact staleness results
  ask that each update commits at a later time than the `updated_at` it replaces.
- xauth: random ids are new; nobody but the service makes tokens that verify under the refresh
  secret; JSON carries the configured username unchanged; in `XauthTokens` handlers run one at a
  time by one clock. HMAC-SHA256 is an arbitrary function of secret and text.
- Retry loop: a request on a context that is over fails with the context's error at once; a
  `select` takes the channel that is ready first, and either if it finds both ready.

## Where the code and its comments differ

- internal/services/gateway/handlers.go:522-523 and 559-560 promise that after `cancel()` no
  `safeWrite` or `safeSetReadDeadline` touches the connection. The check and the call are two steps
  and `cancel()` does not take the mutex, so one call already past its check can still start:
  `WsSession.LateCalls` says exactly when, `WsSession.LateWriteHappens` and
  `WsSession.LateDeadlineHappens` give runs.
- internal/services/gateway/ratelimit.go:204-206 says a connection is rejected when the limit is
  used up. A rejected newcomer holds a count until it takes it back, and others may be rejected
  meanwhile: `WsAdmission.TurnedAway` is the exact condition, `WsAdmission.TurnedAwayWithFreeSlots`
  a run.
- internal/services/xauth/handlers.go:71-72 says that the old refresh token is revoked and a new
  one issued. Two refreshes can both succeed with one token (`XauthSteps.TokenUsedTwice` is a run):
  `XauthReuse.UsedTwiceExactly` says exactly when, `XauthReuse.UsedOnce` when not.
- internal/services/xhttp/cache.go:11-13 speaks of degrading without loss of function. Even with a
  working cache a racing read can store an old value that stays until the next write
  (`XhttpRaces.StaleHappens` is a run): `XhttpRaces.StaleItemExactly` and
  `XhttpRaces.StaleListExactly` say exactly when.

## Model

| member | source | states |
|---|---|---|
| `TokenBucket.IdleIsFull` | internal/services/gateway/ratelimit.go:124-137 | a bucket idle for the five-minute cutoff, with burst <= 300 s * rate, answers and ends up exactly as a brand new one: forgetting it changes nothing |
| `TokenBucket.LevelGrowth` | internal/services/gateway/ratelimit.go:80-88 | what a bucket can hold never shrinks with time alone and grows by at most rate * elapsed |
| `TokenBucket.AllowConserves` | internal/services/gateway/ratelimit.go:80-88 | tokens admitted plus tokens left equal the tokens that were there; a refusal takes nothing |
| `TokenBucket.AllowInRange` | internal/services/gateway/ratelimit.go:80-88 | a bucket stays between empty and its burst, and its clock never passes the present |
| `RecencyTable.TouchTail` | internal/services/gateway/ratelimit.go:101-120 | behind the touched IP the table keeps its old entries in their old order, without that IP |
| `RecencyTable.TouchWellFormed` | internal/services/gateway/ratelimit.go:96-122 | `get` keeps the table free of duplicates, sorted by last access and within MaxIPs, with the requested IP in front |
| `RecencyTable.AdmitWellFormed` | internal/services/gateway/ratelimit.go:80-122 | `get` then `Allow` keeps the whole table invariant, buckets included |
| `RecencyTable.ExpireIsPrefix` | internal/services/gateway/ratelimit.go:144-161 | on a sorted table, removing every entry older than the cutoff is the same as cutting a tail off: all that stays is fresh and in order, all that goes is stale |
| `RecencyTable.ExpireFromBack` | internal/services/gateway/ratelimit.go:148-161 | why the back-walk may stop at its first fresh entry: one step of it leaves the full filter's result unchanged |
| `IpTables.Limiter.Allow` | internal/services/gateway/ratelimit.go:80-88 | the mutable limiter object follows the token-bucket law, answer and new state |
| `IpTables.RecencyList.MoveToFront` | internal/services/gateway/ratelimit.go:101-105 | relinking a node in the ring moves exactly that node to the front and keeps every link of the ring in order |
| `IpTables.RecencyList.Remove` | internal/services/gateway/ratelimit.go:108-112 | unlinking a node takes exactly it out of the ring |
| `IpTables.RecencyList.LinkFront` | internal/services/gateway/ratelimit.go:119 | linking a new node puts it first and leaves the rest in order |
| `IpTables.RecencyList.Back` | internal/services/gateway/ratelimit.go:108 | the back of the ring is the last node, and nothing for an empty list |
| `IpTables.IpTable.KeysMatch` | internal/services/gateway/ratelimit.go:40-46 | the map's keys are exactly the list's IPs, each once |
| `IpTables.IpTable.Hit` | internal/services/gateway/ratelimit.go:101-105 | a hit stamps the entry, moves it to the front and touches nothing else |
| `IpTables.IpTable.DropBack` | internal/services/gateway/ratelimit.go:107-113 | eviction removes the last entry from list and map alike |
| `IpTables.IpTable.Insert` | internal/services/gateway/ratelimit.go:115-121 | a miss enters a full bucket under the IP, in front, its record knowing its own node |
| `IpTables.IpTable.Get` | internal/services/gateway/ratelimit.go:96-122 | hit, miss and eviction on the linked structure refine the plain recency table; the limiter returned is the one of the IP, now in front |
| `IpTables.IpTable.Allow` | internal/services/gateway/ratelimit.go:80-88 | `get` and `Allow` in place: the answer and the new table are those of the plain recency table |
| `IpTables.IpTable.CleanupExpired` | internal/services/gateway/ratelimit.go:148-161 | the early-stopping back-walk over list and map equals the full filter, keeps the order, and takes one iteration per removed entry plus one |
| `RateRuns.PlayWellFormed` | internal/services/gateway/ratelimit.go:40-46 | after every timed run of requests and sweeps: no duplicate, last accesses non-increasing from front to back, at most MaxIPs entries |
| `RateRuns.PlayRecency` | internal/services/gateway/ratelimit.go:40-46 | the table order is the order of last requests in the run, and each entry carries the time of its last one |
| `RateRuns.EvictionNeedsOthers` | internal/services/gateway/ratelimit.go:107-113 | capacity evicts an IP only after MaxIPs different other IPs (the newcomer included) were requested since its own last request |
| `RateRuns.EvictedWasIdle` | internal/services/gateway/ratelimit.go:107-113 | if no closed five-minute window sees more than MaxIPs IPs, whatever capacity evicts was idle for over five minutes |
| `RateRuns.OthersKept` | internal/services/gateway/ratelimit.go:96-122 | a request leaves every other IP's bucket alone; the only entry it can remove is the last one of a full table, on a miss |
| `RateAgreement.StepMirrors` | internal/services/gateway/ratelimit.go:81-161 | one event: table and unbounded reference answer alike and stay related |
| `RateAgreement.Agreement` | internal/services/gateway/ratelimit.go:81-161 | with burst <= 300 s * rate and at most MaxIPs IPs per closed five-minute window, every timed run gets exactly the answers of one never-removed bucket per IP |
| `RateAgreement.Budget` | internal/services/gateway/ratelimit.go:81-122 | conservation over a run: admissions plus tokens held at the end are covered by tokens held at the start, the bursts of new entries and the refill |
| `RateAgreement.RateBound` | internal/services/gateway/ratelimit.go:81-122 | with no assumption on traffic: in a window of length d one IP is admitted at most (1 + k) * burst + rate * d times, k being the removals of its entry |
| `RateExact.ReferenceAdmitsExactly` | internal/services/gateway/ratelimit.go:80-88 | a never-removed bucket decides exactly by counts and times: a request at u is admitted if and only if, for every earlier request at s, the admissions from s on plus this one are at most burst + rate * (u - s) |
| `RateExact.TableAdmitsExactly` | internal/services/gateway/ratelimit.go:80-122 | the same for the table with arbitrary traffic and no assumption: a request is admitted if and only if every window since its entry was last created has room for it; so a refusal means that some window is used up |
| `RateSharpness.AgreementIff` | internal/services/gateway/ratelimit.go:81-161 | for any valid settings: every window-bounded run agrees with the unbounded reference if and only if burst <= 300 s * rate |
| `RateSharpness.WindowBoundIsSharp` | internal/services/gateway/ratelimit.go:107-113 | for any valid settings: with one more IP per window some run disagrees, so the window condition cannot be relaxed |
| `GatewayLimits.RateLimiter.Limit` | internal/services/gateway/ratelimit.go:175-202 | the middleware on both in-place tables: strict limit first on its prefix, then the general one; a request refused by the first never reaches the second |
| `GatewayLimits.RateLimiter.Cleanup` | internal/services/gateway/ratelimit.go:126-142 | one cleanup tick filters both tables at now - 5 min |
| `GatewayLimits.StrictExactly` | internal/services/gateway/ratelimit.go:180 | the strict limit covers a path if and only if a prefix is configured and the path is that prefix with anything after it |
| `GatewayLimits.PrefixIsCharged` | internal/services/gateway/ratelimit.go:180-190 | every request on prefix + rest is charged to the auth table |
| `GatewayLimits.OthersAreNotCharged` | internal/services/gateway/ratelimit.go:180-190 | a request on a path that has no such form leaves the auth table as it was |
| `GatewayLimits.DecidesExactly` | internal/services/gateway/ratelimit.go:175-202 | the middleware decides by the two ledgers of counts and times: refused by the auth limit exactly if the path is under the prefix and an auth window is used up, else by the general limit exactly if a general window is |
| `GatewayLimits.Shares` | internal/services/gateway/ratelimit.go:175-202 | whatever the middleware does, each table has played exactly its own share of the traffic |
| `GatewayLimits.BothBounds` | internal/services/gateway/ratelimit.go:175-202 | all that gets through obeys the general bound, and what gets through on a path of the form prefix + rest obeys the auth bound as well |
| `GatewayLimits.BothWellFormed` | internal/services/gateway/ratelimit.go:124-161 | both tables keep their invariant through every run, so each sweep finds them sorted |
| `GatewayLimits.MiddlewareAgreement` | internal/services/gateway/ratelimit.go:175-202 | the whole middleware decides every stream of requests and ticks as two unbounded bucket maps would |
| `WsSession.StepKeeps` | internal/services/gateway/handlers.go:515-703 | every step of read loop, ping, shutdown goroutine, NATS callback and teardown keeps the invariant tying mutex, cancellation, socket and deferred calls together |
| `WsSession.SocketSafety` | internal/services/gateway/handlers.go:525-573 | in every interleaving: guarded socket calls exclude each other; nothing touches the socket after `Close`; nobody is inside a call while it is being closed; `Close` happens once, and before the slot is released; every message read is handed on before the next one is read |
| `WsSession.LateCalls` | internal/services/gateway/handlers.go:532-555 | at most one guarded socket call, WriteMessage or SetReadDeadline, ever starts after cancellation, and over a whole session one does if and only if cancellation overtook a thread between its check and its call |
| `WsSession.LateWriteHappens` | internal/services/gateway/handlers.go:532-544 | a concrete interleaving in which a ping goes out after a CLOSE message has cancelled the session |
| `WsSession.LateDeadlineHappens` | internal/services/gateway/handlers.go:547-555 | a concrete interleaving in which the shutdown goroutine's SetReadDeadline starts after cancellation |
| `WsTeardown.StepDescends` | internal/services/gateway/handlers.go:567-573 | from the teardown's cancel on, every step of every thread strictly lowers a rank over their positions and the callbacks in flight |
| `WsTeardown.OutsideAddsNothing` | internal/services/gateway/handlers.go:565-573 | nothing from outside adds work by then: no further callback is started |
| `WsTeardown.SomeoneGoesOn` | internal/services/gateway/handlers.go:567-573 | no deadlock: until the slot is released some thread can take a step |
| `WsTeardown.TeardownFinishes` | internal/services/gateway/handlers.go:567-573 | in every run the teardown takes at most `Rank` steps, and all threads can only stop with the socket closed once and the slot released once |
| `WsTeardown.TeardownStarts` | internal/services/gateway/handlers.go:565-569 | the deferred unsubscribe and cancel never wait |
| `WsEndings.EndIsSeenThrough` | internal/services/gateway/handlers.go:590-697 | in every run: after a missing ack, a failed subscription, a failed or overdue read, a failed ping or message write, or a CLOSE message, the thread it happened in never returns to its work, and when it is over the session has been cancelled |
| `WsEndings.WindsDown` | internal/services/gateway/handlers.go:567-703 | from cancellation on the handler takes at most twenty steps to its `wg.Wait`, and reads at most one more message |
| `WsEndings.FramesGoOut` | internal/services/gateway/handlers.go:603-693 | in every run: a frame that is due (a delivered message, the refusal, the inactivity notice, a ping, the farewell) is written by the thread it fell to, unless that thread still has it before it or the session is cancelled |
| `WsAdmission.HubKeeps` | internal/services/gateway/ratelimit.go:207-217 | every step of any number of handlers keeps the counting invariant |
| `WsAdmission.OpenSocketsBounded` | internal/services/gateway/ratelimit.go:207-217 | in every state of every run: counter = admitted and not released + rejecters between +1 and -1; open sockets <= admitted <= MaxWSConns although the counter may overshoot |
| `WsAdmission.SlotsComeBack` | internal/services/gateway/handlers.go:482-508 | each admitted handler releases once and only after `Close`; when all handlers are done the counter is zero |
| `WsAdmission.TurnedAway` | internal/services/gateway/ratelimit.go:207-211 | a newcomer is rejected if and only if admitted handlers and rejecters still holding a count fill the limit between them |
| `WsAdmission.TurnedAwayWithFreeSlots` | internal/services/gateway/ratelimit.go:207-211 | a concrete run in which a newcomer is rejected although every slot is free |
| `XwsRegistry.StepKeeps` | internal/services/xws/manager.go:39-153 | every step of `Open`, incoming messages, timer callbacks, disconnects, `remove` and `CloseAll` keeps the invariant over both kinds of mutex |
| `XwsRegistry.OneClose` | internal/services/xws/session.go:61-80 | in every interleaving Control CLOSE and Unsubscribe are issued at most once per session, and exactly once when it is closed and no closer is still at it |
| `XwsRegistry.NeverRearmed` | internal/services/xws/session.go:61-91 | once `closed` is set no step arms the timer or reopens the session; the timer can still be armed only right before the closer's Stop |
| `XwsRegistry.StaysClosed` | internal/services/xws/session.go:61-91 | over any continuation a closed session with a stopped timer stays closed with a stopped timer |
| `XwsRegistry.RegistryTracks` | internal/services/xws/manager.go:39-153 | an open session is in the map, about to be, or in a `CloseAll` snapshot still to be worked off; a session in the map is open, or the very thread that closed it has still to remove it |
| `XwsRegistry.RegistryExact` | internal/services/xws/manager.go:123-153 | the map holds exactly the open sessions unless a thread that set `closed` has yet to delete, a sweep has an open session left, or a registration is halfway; a timer or disconnect whose `close` has not set the flag yet does not matter |
| `XwsRegistry.CloseAllCloses` | internal/services/xws/manager.go:137-153 | the snapshot is the whole map, and when `CloseAll` returns every session in it is closed |
| `XwsRegistry.NoDeadlock` | internal/services/xws/manager.go:39-153 | the two kinds of mutex never deadlock: while a thread is unfinished some thread can step |
| `XwsRegistry.OpenIsWatched` | internal/services/xws/manager.go:60-64 | in every state an open session has its inactivity timer running, to fire within the timeout, or some thread is already inside `close` on it: none is left with nobody and nothing to end it; a session that failed to open keeps no timer |
| `XwsRegistry.FiresOnlyInSilence` | internal/services/xws/session.go:82-91 | the timer never ends an open session earlier than the whole timeout after any message whose `resetTimer` is through, whatever happened in between |
| `XwsRegistry.EndIsSeenThrough` | internal/services/xws/manager.go:60-128 | when the thread that handles a timeout or a disconnect message has finished, the session is closed and out of the map, whatever ran beside it |
| `Decimals.DecimalInjective` | internal/services/xhttp/handlers.go:100 | decimal numerals of different integers, negative ones included, differ |
| `XhttpKeys.KeysNeverCollide` | internal/services/xhttp/handlers.go:100 | keys `item:n` of different ids differ and none is `list` |
| `XhttpStore.Server.HandleCreate` | internal/services/xhttp/handlers.go:51-82 | create: reply, row, serial and invalidation of `list` as specified, with every error path |
| `XhttpStore.Server.HandleGet` | internal/services/xhttp/handlers.go:88-132 | get: cache hit, undecodable or missing entry, 404, 500 and the final Put as specified |
| `XhttpStore.Server.HandleList` | internal/services/xhttp/handlers.go:137-179 | list: the row loop yields the id-ordered table, cached and replied, or stops at an unreadable row |
| `XhttpStore.Server.HandleUpdate` | internal/services/xhttp/handlers.go:185-221 | update: row, reply and invalidation of both keys as specified |
| `XhttpStore.Server.HandleDelete` | internal/services/xhttp/handlers.go:227-256 | delete: row, reply and invalidation of both keys as specified |
| `XhttpStore.Server.Invalidate` | internal/services/xhttp/cache.go:46-52 | the loop deletes exactly the given keys, or none when deletes fail |
| `XhttpStore.RowsInOrder` | internal/services/xhttp/handlers.go:150-171 | the list holds exactly the rows, in strictly increasing id order |
| `XhttpStore.NewIdsAreUncached` | internal/services/xhttp/handlers.go:67-80 | the id of a new row is never cached already, so create need not invalidate `item:id` |
| `XhttpStore.ServeAgrees` | internal/services/xhttp/handlers.go:51-256 | one request: reply and rows are those of a server with no cache, and every cached value still matches the rows |
| `XhttpStore.CacheIsInvisible` | internal/services/xhttp/handlers.go:51-256 | for every request sequence, with cache reads and writes failing at will but invalidations succeeding: every reply equals that of a server with no cache |
| `XhttpStore.OutagesOnlyHide` | internal/services/xhttp/handlers.go:51-256 | when the database comes and goes as well, each reply is the cacheless server's or what it would have said with a working database |
| `XhttpLaws.WriteStatus` | internal/services/xhttp/handlers.go:51-256 | which status each create, update and delete is answered with, and that a refused one changes nothing |
| `XhttpLaws.GetReads` | internal/services/xhttp/handlers.go:88-132 | a get, cached or not, replies the row under the id, or 404 if there is none |
| `XhttpLaws.ListReads` | internal/services/xhttp/handlers.go:137-179 | a list, cached or not, replies exactly the rows in increasing id order |
| `XhttpLaws.CreateThenRead` | internal/services/xhttp/handlers.go:51-179 | a create replies a new id with exactly the given name and value and the time of the insert, and that is what every later get and list shows until someone updates or deletes it |
| `XhttpLaws.UpdateThenRead` | internal/services/xhttp/handlers.go:88-221 | an update keeps id and creation time, takes the new name, value and time, and that is what later reads show |
| `XhttpLaws.DeleteThenRead` | internal/services/xhttp/handlers.go:88-256 | after a delete every later get of the id is 404 and no list shows it, whatever is requested in between |
| `XhttpLaws.ItemOutlivesOutage` | internal/services/xhttp/handlers.go:88-132 | an item once read and stored is served again with the same reply while the database is down, until its row is touched |
| `XhttpLaws.ListOutlivesOutage` | internal/services/xhttp/handlers.go:137-179 | so is the list, until a write is requested |
| `XhttpRaces.RenderedApart` | internal/services/xhttp/handlers.go:100 | the keys of the racing model are distinct strings in the store |
| `XhttpRaces.ServedWasTrue` | internal/services/xhttp/handlers.go:100-178 | in every interleaving with any cache operation failing and any commit going unnoticed: an item served is its row in some past database state, a list served is the whole id-ordered table of one |
| `XhttpRaces.WriteExplains` | internal/services/xhttp/handlers.go:67-256 | a write changes nothing that existed outside the keys it invalidates |
| `XhttpRaces.StaleOnlyByRace` | internal/services/xhttp/handlers.go:88-256 | with successful invalidations: a cached value differing from the database was overtaken by a write after its SELECT, and every such write raced the read |
| `XhttpRaces.StaleAtRest` | internal/services/xhttp/handlers.go:88-256 | at rest, a stale entry was stored by a read that did its SELECT before some write committed and its Put after that write's Invalidate |
| `XhttpRaces.WriteGrows` | internal/services/xhttp/handlers.go:67-256 | a write never lowers the serial, brings a gone id back or turns `updated_at` back, and its own row goes or moves on |
| `XhttpRaces.RowHistory` | internal/services/xhttp/handlers.go:67-256 | over a whole run: a row once there is gone for good, or has an `updated_at` that grew with every write to it |
| `XhttpRaces.StaleItemExactly` | internal/services/xhttp/handlers.go:88-256 | with successful invalidations and updates that commit later than the `updated_at` they replace: a cached item, deleted rows included, is stale if and only if some write raced its read |
| `XhttpRaces.StaleListExactly` | internal/services/xhttp/handlers.go:137-256 | under the same condition: a cached list is stale if and only if a racing write updated or deleted a row its SELECT had seen, or created a row that is still there |
| `XhttpRaces.StaleHappens` | internal/services/xhttp/handlers.go:88-221 | a concrete interleaving that leaves a stale item behind for good |
| `XhttpSolo.ReadAloneMatches` | internal/services/xhttp/handlers.go:88-179 | a read whose racing steps run alone gives the reply of the sequential server and leaves the same cache |
| `XhttpSolo.WriteAloneMatches` | internal/services/xhttp/handlers.go:51-256 | a write whose steps run alone commits exactly when the sequential server accepts it, leaves the same rows, and takes out exactly the keys whose own invalidation succeeded |
| `XhttpSolo.WriteAloneAlike` | internal/services/xhttp/handlers.go:51-256 | with all invalidations succeeding or all failing it leaves the same cache too |
| `Text.SplitParts` | internal/services/xauth/jwt.go:57 | splitting at a separator gives parts free of it that join to the original |
| `Text.SplitJoin` | internal/services/xauth/jwt.go:57 | joining parts free of the separator and splitting again gives the parts |
| `Base64Url.DecodeEncode` | internal/services/xauth/jwt.go:42-80 | decoding undoes encoding for all byte strings, and an encoding contains no dot |
| `Base64Url.EncodeGroups` | internal/services/xauth/jwt.go:80 | encoding undoes decoding if and only if the spare trailing bits are zero |
| `Base64Url.KnownEncodings` | internal/services/xauth/jwt.go:42-80 | examples of section 10 of RFC 4648, and the two characters of the URL-safe alphabet |
| `Jwt.VerifySigned` | internal/services/xauth/jwt.go:36-91 | a signed token verifies under the same secret and gives back the claims it was signed for |
| `Jwt.Accepted` | internal/services/xauth/jwt.go:56-91 | exactly which tokens are accepted with which claims: the fixed header, a dot-free payload segment decoding to the claims, and the MAC of just those |
| `Jwt.AcceptedIsUnique` | internal/services/xauth/jwt.go:56-91 | an accepted token is fixed by its payload segment and the secret |
| `Jwt.SecretsSeparate` | internal/services/xauth/jwt.go:56-91 | a token signed under one secret passes under another only if the MAC gives the same for both: access and refresh tokens are not each other |
| `XauthTokens.AuthServer.IssueTokenCookies` | internal/services/xauth/handlers.go:194-243 | both tokens or none; the new refresh id is stored before the cookies exist, and nothing is stored on failure |
| `XauthTokens.AuthServer.HandleLogin` | internal/services/xauth/handlers.go:35-69 | login as specified, with every error path |
| `XauthTokens.AuthServer.HandleRefresh` | internal/services/xauth/handlers.go:75-131 | refresh as specified: order of the refusals, new id first, revocation last and optional |
| `XauthTokens.AuthServer.HandleLogout` | internal/services/xauth/handlers.go:136-157 | logout revokes the id of any token that verifies, and always clears the cookies |
| `XauthTokens.LoginExactly` | internal/services/xauth/handlers.go:35-69 | tokens are handed out if and only if name and password are both the configured ones and tokens can be issued; otherwise the store is unchanged |
| `XauthTokens.RefreshTrades` | internal/services/xauth/handlers.go:75-131 | a refresh makes the new id live, ends the old one exactly if the revocation succeeds, and touches no third; a refusal changes nothing and is a 500 exactly if the token was good and the service was not |
| `XauthTokens.LoginPairWorks` | internal/services/xauth/handlers.go:35-69 | the access token of a login identifies the user exactly for its lifetime, and its refresh token is exchanged in turn |
| `XauthTokens.RefreshPairWorks` | internal/services/xauth/handlers.go:75-131 | so do the two tokens of a refresh |
| `XauthTokens.IssuedIsKept` | internal/services/xauth/handlers.go:194-243 | the store holds each new refresh id with the second in which the token says it expires |
| `XauthTokens.IssuesComeFromLogins` | internal/services/xauth/handlers.go:35-131 | in every run each issue descends from a login with the configured name and password, the one that began its family |
| `XauthTokens.NobodyWithoutPassword` | internal/services/xauth/handlers.go:46-51 | in every run without such a login nothing is issued and no id is ever live |
| `XauthTokens.RequireAuth` | internal/middleware/xauth.go:50-76 | the wrapped handler runs exactly for the tokens the `me` endpoint accepts and is told the same subject; a refused message is untouched |
| `XauthTokens.AccessWindow` | internal/services/xauth/handlers.go:163-178 | an issued access token is accepted up to and including Unix second floor(at + AccessTTL) + 60 and never after |
| `XauthTokens.RefreshWindow` | internal/services/xauth/handlers.go:75-118 | an issued refresh token is exchanged if and only if its id is live, its last second + 60 has not passed and the store works |
| `XauthTokens.LoginThenRefresh` | internal/services/xauth/handlers.go:35-131 | a login's access token identifies the user at once, its refresh token is exchanged for a live one, and is then refused |
| `XauthTokens.LiveIdsCount` | internal/services/xauth/handlers.go:96-142 | over every run, whatever writes fail: live ids = successful issues - ids turned from live to revoked |
| `XauthTokens.RefreshKeepsCount` | internal/services/xauth/handlers.go:113-123 | a refresh whose writes succeed keeps the number of live ids |
| `XauthTokens.RevokedForGood` | internal/services/xauth/handlers.go:120-142 | a revoked id never becomes live again in any run |
| `XauthTokens.OneLivePerFamily` | internal/services/xauth/handlers.go:96-123 | when refresh revocations get through, each login family has at most one live refresh id |
| `XauthTokens.LogoutTakesEffect` | internal/services/xauth/handlers.go:75-178 | after a logout at time T with its family's live token, whatever happens later, every access token of the family is refused at every Unix second past floor(T + AccessTTL) + 60 |
| `XauthTokens.LoginThenLogout` | internal/services/xauth/handlers.go:35-157 | such a logout exists for every configuration: log in, then present the refresh cookie received |
| `XauthSteps.StepKeeps` | internal/services/xauth/handlers.go:96-142 | every store operation of racing logins, refreshes and logouts keeps the invariant |
| `XauthSteps.RotationKeepsSession` | internal/services/xauth/handlers.go:107-123 | in every intermediate state a refresh about to revoke has its own new id live in the store, and no id was revoked by a call that ended in an error |
| `XauthSteps.RevokedForGood` | internal/services/xauth/handlers.go:120-142 | revocation is permanent in every interleaving, even with writes that take effect unnoticed |
| `XauthReuse.ExchangedExactly` | internal/services/xauth/handlers.go:95-123 | in every interleaving an answered refresh got new cookies if and only if it asked the store before any revocation of its token took effect and its new id could be stored |
| `XauthReuse.UsedTwiceExactly` | internal/services/xauth/handlers.go:95-123 | a token is exchanged twice if and only if two refreshes ask the store before the first revocation of the token takes effect, through overlap or failed revocations, and both can store their new ids |
| `XauthReuse.SecondUseNeedsFailure` | internal/services/xauth/handlers.go:95-123 | of two exchanges of a token that did not overlap, the earlier one's revocation had no effect |
| `XauthReuse.UsedOnce` | internal/services/xauth/handlers.go:71-123 | when refreshes with a token do not overlap and their revocations take effect, it is exchanged at most once |
| `XauthReuse.UsedTwiceInTurn` | internal/services/xauth/handlers.go:120-123 | a concrete run in which a token is exchanged twice without overlap because the first revocation failed |
| `XauthSteps.TokenUsedTwice` | internal/services/xauth/handlers.go:96-120 | a concrete interleaving in which one refresh token is exchanged twice |
| `Routing.RouteRequest` | internal/services/gateway/handlers.go:191-233 | the validating loop decides as the regular expression on all segments does, and reaches the RPC branch exactly for the served paths, with their subject |
| `Routing.TrimTakesSlashes` | internal/services/gateway/handlers.go:192 | trimming removes slashes from both ends and nothing else |
| `Routing.SubjectTokens` | internal/services/gateway/handlers.go:152-254 | splitting the subject at its dots gives `api` and exactly the path's segments, `v1` first, none empty, and there is no wildcard or white space anywhere in it |
| `Routing.SubjectInjective` | internal/services/gateway/handlers.go:191-254 | two served paths share a subject if and only if they differ in leading and trailing slashes only |
| `Routing.AcceptedPaths` | internal/services/gateway/handlers.go:191-233 | exactly which paths are served over HTTP |
| `RetryLoop.Request` | internal/services/gateway/handlers.go:318-339 | the loop stops at the first result other than no-responders or when time is up, after at most ceil(T/d) + 1 attempts |
| `RetryLoop.AttemptsSettled` | internal/services/gateway/handlers.go:328-339 | the number of attempts is determined by the surroundings, and bounded by ceil(T/d) + 1 |
| `RetryLoop.AttemptsSpaced` | internal/services/gateway/handlers.go:328-339 | between an answer and the next attempt a whole delay goes by, exactly one if nothing holds the goroutine up; and every attempt but the last starts in time |
| `RetryLoop.BoundIsMet` | internal/services/gateway/handlers.go:328-339 | the bound is reached for every delay and timeout: by a goroutine held up before its `select`, and with no stall when the delay divides the timeout |
| `RetryLoop.UnstalledBound` | internal/services/gateway/handlers.go:328-339 | when no goroutine is held up before its `select` there are at most floor(T/d) + 1 attempts |
| `RetryLoop.UnstalledBoundIsMet` | internal/services/gateway/handlers.go:328-339 | that bound is reached for every delay and every timeout |

## Left out

- RegistryTracks: assumes that a session id is opened at most once; if one were reused, a late `remove` of the first session would delete the second.
- CacheIsInvisible: assumes that invalidations succeed; `XhttpRaces.ServedWasTrue` is what remains without that.
- LogoutTakesEffect: is about handlers that run one at a time; for overlapping refreshes of one token see `XauthReuse.UsedTwiceExactly`.
- HTTP, NATS, PostgreSQL and gorilla/websocket themselves, metrics, logging, environment variables, process start-up, deployment files and the browser client: plumbing.
- `realIP`, `initKV`, `utils/hosts.go`, cookie formatting and reply helpers, status parsing and error classification of the gateway: correct but easy members.
- Rounding inside `rate.Limiter`, HMAC-SHA256, the random generator and the JSON codec: replaced by reals, an arbitrary function, freshness and an inverse pair.
- Delivery of the `connected` greeting: it is published before the acknowledgement, the gateway subscribes after it, and nothing orders the two.
- A close frame or a prompt interruption of the reader at server shutdown: the session's context is a child of the server's, so the write is usually refused.
- Messages published after CLOSE: `send` does not look at `closed`.
- Expiry of cached values by TTL: the handlers never set one.
- Fairness of the scheduler: termination results bound the number of steps, they do not say that steps are taken.
- Request bodies as bytes: malformed JSON is one request kind, and the fields of a well-formed one are given.
