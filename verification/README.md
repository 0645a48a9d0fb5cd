# GameLift FPS sample: a verified model of its rules

This Dafny project models the decision-making core of a small Unity
first-person shooter hosted on Amazon GameLift:

- **the client's session acquisition** (`GameLiftClient`), in `game_lift_client.dfy` and `region_ranking.dfy`;
- **the dedicated server's liveness tracking** (`EnvironmentManager`), in `game.dfy`;
- **the hosting-SDK callback policy** (`GameLiftServer`), in `game_lift_server.dfy`;
- **the health, kill and death accounting** (`FPSPlayer` together with `EnvironmentManager.ReportDeath`), in `game.dfy`.

`wrappers.dfy` holds `Option`, a `Response` type (`Returned(value)` or
`Threw`) that stands for a C# call that may throw, and `NoDuplicates`.

## Session acquisition

The client first ranks the fleet's regions by latency:

1. It resolves the fleet alias.
2. It lists the compute locations, keeping each once in first-seen order.
3. It pings each location.
4. It keeps the regions at or under 100 ms, in non-decreasing latency order.
5. It picks the overall fastest region as the best one.

It then searches tier by tier:

1. each acceptable region, with the filter `playerSessionCount>=1`;
2. an unfiltered search in the best region;
3. the creation of a 10-player session in the best region.

Each tier has a counter of 5 attempts. A session that is found, but whose
player-session reservation comes back null, sets the counter back to 5. The
loop's own decrement then leaves 4 further attempts.

Every AWS call is an oracle input:

- `ProbeOracle` gives the alias, the compute list and a ping function.
- `Replies` gives the finite sequences of search, create and reservation replies.

One attempt is `TierAttempt`. A tier is the recursive specification
`RunTier`, and the method `TryTier` runs the source's counting loop against
it. The whole tier sequence is `RunPlan`, run by `SearchTiers`. The static
fields of the C# class become the `Client` class.

## Server liveness tracking

`EnvironmentManager` keeps three fields, updated in place by its handlers
and by the heartbeat tick:

- `clientHeartbeats` maps each client to the time it was last heard from;
- `playerSessionIds` maps each client to its player-session id;
- `lastActivityTime` is the last time any client was active.

Each tick does three things in order:

1. It asks every client for a heartbeat.
2. It evicts the clients silent for more than 30 s. It ends each evicted client's player session and disconnects the client.
3. It shuts the server down when nothing happened for more than 300 s.

What a handler asks of the world is returned as a sequence of `Effect`s:

- SDK calls;
- the heartbeat request;
- spawning a player;
- asking a client for its player-session id;
- disconnecting a client.

Time is an integer.

## Hosting-SDK callbacks

Each `GameLiftServer` callback is a function from the SDK's outcome flags to
the trace of SDK calls it makes and, where it does, the quit.

## Health accounting

`FPSPlayer.TakeDamage` subtracts the damage with C# `int` wrap-around
(`Wrap32`). At or below zero it clamps health to 0 and reports the death.
`ReportDeath` adds one to the source's kills and one to the victim's deaths.
Health returns to `maxHealth` only when that report returns.

## How the model follows the code

The model follows the code as written, including behaviour that reads
like an oversight. Each item below is a proved property of the model.

- **No bound on attempts.** While reservations keep coming back null, a tier never runs out of attempts; only the finite reply oracle ends it. This holds for the search tiers (`LostReservationsNeverExhaust`) and for the creation tier (`LostReservationsNeverExhaustCreating`). The attempts are bounded only relative to the number of player-session requests (`TierAttemptBound`).
- **State kept across calls.** `_bestRegion` and `_acceptableRegions` are static fields that keep their values between calls. A later call whose ranking fails reuses them (`Client.GetConnectionInfo`, `ConnectionAttempt`). If no ranking has ever succeeded, `_acceptableRegions` is null: the search throws before any tier runs, and even the default-region tiers are never tried.
- **Repeated shutdown.** The idle shutdown is not latched. Every tick after the 300 s limit issues `TerminateGameSession` again (`EnvironmentManager.Tick`).
- **Activity time on a duplicate connect.** A connect moves `lastActivityTime` even when the id is already tracked and the insertion throws (`EnvironmentManager.HandleClientConnected`).
- **Health after a failed death report.** A death whose report throws leaves the player's health at 0 (`FPSPlayer.HandleDeath`, `HealthAfterHit`).

## Model

| member | source | states |
|---|---|---|
| GameLiftServer.Initialize | Assets/Scripts/GameLiftServer.cs:13-22 | only a process running as server initialises the SDK; ProcessReady is made, with the chosen port, exactly when running as server and InitSDK succeeded; a client process makes no SDK call; nothing quits |
| GameLiftServer.CreateServer | Assets/Scripts/GameLiftServer.cs:24-56 | InitSDK comes first; ProcessReady is attempted exactly when InitSDK succeeded, and advertises a port in 7000..7999; a failed ProcessReady does not quit |
| GameLiftServer.OnGameSession | Assets/Scripts/GameLiftServer.cs:58-70 | ActivateGameSession is called exactly when running as server, at most one call, no quit |
| GameLiftServer.OnProcessTerminate | Assets/Scripts/GameLiftServer.cs:72-86 | ProcessEnding is always called first; the process quits if and only if ProcessEnding succeeded |
| GameLiftServer.OnHealthCheck | Assets/Scripts/GameLiftServer.cs:93-105 | the process reports healthy if and only if it runs as server |
| GameLiftServer.ActivatePlayerSession | Assets/Scripts/GameLiftServer.cs:108-119 | exactly one SDK call, AcceptPlayerSession with the given id, and no quit |
| GameLiftServer.TerminatePlayerSession | Assets/Scripts/GameLiftServer.cs:121-132 | exactly one SDK call, RemovePlayerSession with the given id, and no quit |
| GameLiftServer.TerminateGameSession | Assets/Scripts/GameLiftServer.cs:134-149 | ProcessEnding is called first, and the process quits whether it succeeded or not |
| GameLiftServer.PlayerSessionFailureOnlyLogged | Assets/Scripts/GameLiftServer.cs:108-132 | a failed accept or remove changes nothing but the log: the trace is the same for both outcomes |
| GameLiftServer.TerminationPolicies | Assets/Scripts/GameLiftServer.cs:134-149 | TerminateGameSession always quits; OnProcessTerminate keeps running exactly when ProcessEnding fails, and behaves like TerminateGameSession when it succeeds |
| RegionRanking.Distinct | Assets/Scripts/GameLiftClient.cs:266-273 | the fleet's region list has no duplicates and holds exactly the compute locations |
| RegionRanking.DistinctKeepsFirstSeenOrder | Assets/Scripts/GameLiftClient.cs:266-273 | the regions appear in the order of their first occurrence among the locations |
| RegionRanking.SortByLatency | Assets/Scripts/GameLiftClient.cs:224 | OrderBy by latency: the result is in non-decreasing latency order and a permutation of the input |
| RegionRanking.WithinThreshold | Assets/Scripts/GameLiftClient.cs:224 | the Where filter keeps exactly the samples at or under 100 ms |
| RegionRanking.WithinThresholdMultiplicity | Assets/Scripts/GameLiftClient.cs:224 | the Where filter keeps each sample at or under 100 ms as often as it occurs in the input, and drops every other sample |
| RegionRanking.AcceptableRegionsDistinct | Assets/Scripts/GameLiftClient.cs:220-224 | when the samples are dictionary entries (one per region), each acceptable region is listed once |
| RegionRanking.RegionsOf | Assets/Scripts/GameLiftClient.cs:224 | the Select keeps the order and takes each sample's region |
| RegionRanking.AcceptableSamples | Assets/Scripts/GameLiftClient.cs:224 | the filtered and ordered samples are sorted by latency and no more than the input; AcceptableSamplesCharacterized proves they are exactly the samples at or under 100 ms |
| RegionRanking.AcceptableRegions | Assets/Scripts/GameLiftClient.cs:224 | one region name per acceptable sample, so no more than the samples; AcceptableSamplesCharacterized and AcceptableRegionsDistinct say which regions and that none repeats |
| RegionRanking.BestSample | Assets/Scripts/GameLiftClient.cs:226 | the first sample by latency is one of the samples; BestSampleIsMinimal proves its latency is minimal |
| RegionRanking.BestRegion | Assets/Scripts/GameLiftClient.cs:226 | the best region is the region of one of the samples; BestSampleIsMinimal proves it is a fastest one |
| RegionRanking.AcceptableSamplesCharacterized | Assets/Scripts/GameLiftClient.cs:224 | the acceptable samples are sorted by latency, are a permutation of the filtered ones, and are exactly the samples at or under 100 ms |
| RegionRanking.BestSampleIsMinimal | Assets/Scripts/GameLiftClient.cs:226 | the best sample is one of the samples and has minimal latency among all of them, even above the threshold |
| RegionRanking.SortedHeadIsFirstMinimal | Assets/Scripts/GameLiftClient.cs:226 | the stable sort puts first the earliest sample of minimal latency |
| RegionRanking.FirstAcceptableIsBest | Assets/Scripts/GameLiftClient.cs:224-226 | when some region is acceptable, the first acceptable region is the best region |
| GameLiftClient.FirstSession | Assets/Scripts/GameLiftClient.cs:162-167 | a search yields the first session of the response, or null when the response is empty |
| GameLiftClient.NextSession | Assets/Scripts/GameLiftClient.cs:152-199 | a search consumes exactly the next search reply and yields its first session, or throws when that reply threw; a creation consumes exactly the next create reply and yields its session; reservations are untouched; a call with no reply of its kind left gives none |
| GameLiftClient.TierAttempt | Assets/Scripts/GameLiftClient.cs:57-79 | one attempt makes one search or create call, or that call and one player-session request; it either ends the tier with a status other than Exhausted, or goes on after consuming one reply |
| GameLiftClient.TierAttemptReplies | Assets/Scripts/GameLiftClient.cs:57-79 | the attempt stops with a player session exactly when a session was found and its reservation returned one, and that player session is the reservation's reply; it fails exactly when the search or the reservation threw; it goes on without reset exactly when no session was found, and with the counter reset exactly when the reservation came back null; the reservation asks for the found session |
| GameLiftClient.RunTier | Assets/Scripts/GameLiftClient.cs:57-79 | a tier only consumes replies, and with no attempt left makes no call and is exhausted; TryTier, TierAttemptBound, ExhaustedTierTail and the two LostReservations lemmas characterise it |
| GameLiftClient.TryTier | Assets/Scripts/GameLiftClient.cs:57-79 | the retry loop, with its reset to 5 followed by the loop's own decrement, produces exactly the status, call log and remaining replies of RunTier with 5 attempts |
| GameLiftClient.TierAttemptBound | Assets/Scripts/GameLiftClient.cs:57-79 | a tier calls only its own request and reservations; its search or create calls number at most the attempts left plus 4 per player-session request it made (a final request that returned or threw is counted too) |
| GameLiftClient.ExhaustedTierTail | Assets/Scripts/GameLiftClient.cs:76-79 | an exhausted tier with no failed reservation made exactly its retry count of calls; otherwise exactly 4 calls followed its last failed reservation, not 5 |
| GameLiftClient.UnansweredTierMakesRetryCalls | Assets/Scripts/GameLiftClient.cs:57-61 | when no session is ever found or created, the tier makes its call exactly 5 times (its retry count) and is exhausted |
| GameLiftClient.LostReservationsNeverExhaust | Assets/Scripts/GameLiftClient.cs:57-105 | while every search finds a session whose reservation is null, the tier never exhausts and searches once per available reply: no fixed bound on attempts |
| GameLiftClient.LostReservationsNeverExhaustCreating | Assets/Scripts/GameLiftClient.cs:110-130 | while every created session's reservation is null, the creation tier never exhausts and creates once per available reply: no fixed bound on attempts |
| GameLiftClient.Plan | Assets/Scripts/GameLiftClient.cs:55-132 | one tier per acceptable region, plus the best-region search, plus the creation, all of them session calls |
| GameLiftClient.RunPlan | Assets/Scripts/GameLiftClient.cs:55-132 | at most one run per tier, and at least one when there is a tier |
| GameLiftClient.RunPlanOrder | Assets/Scripts/GameLiftClient.cs:55-132 | every tier but the last ran was exhausted, each run calls only its own tier's request, and an exhausted search means every tier ran |
| GameLiftClient.Filter.Expression | Assets/Scripts/GameLiftClient.cs:154-177 | every filter expression starts with `hasAvailablePlayerSessions=true`, and is exactly that when no player count is asked for; PlanTiers shows both strings the tiers send |
| GameLiftClient.FindGameSessionRequest | Assets/Scripts/GameLiftClient.cs:172-177 | a search in the given region with the caller's alias and the filter asking for at least the given player count; PlanTiers places it in the first tiers |
| GameLiftClient.FindAnyGameSessionRequest | Assets/Scripts/GameLiftClient.cs:154-159 | a search in the best region with the caller's alias and the filter `hasAvailablePlayerSessions=true`; PlanTiers places it after the region tiers |
| GameLiftClient.CreateGameSessionRequest | Assets/Scripts/GameLiftClient.cs:190-195 | a creation of a 10-player session in the best region with the caller's alias; PlanTiers places it last |
| GameLiftClient.PlanTiers | Assets/Scripts/GameLiftClient.cs:157-194 | tier k searches acceptable region k with the filter expression `hasAvailablePlayerSessions=true AND playerSessionCount>=1`, then the best region with `hasAvailablePlayerSessions=true`, then a 10-player session is created in the best region |
| GameLiftClient.ConnectionAttempt | Assets/Scripts/GameLiftClient.cs:44-55 | a successful ranking replaces the best region and the acceptable list; a failed one keeps the values from earlier calls; without a list the attempt fails with no call; otherwise its runs are those of the tier plan; ConnectionTierOrder characterises the runs |
| GameLiftClient.ConnectionTierOrder | Assets/Scripts/GameLiftClient.cs:39-138 | with no region list the attempt fails before any call; otherwise tiers run in the fixed order, each only after the earlier ones were exhausted, the first player session or failure ends the search, and exhaustion means all tiers ran |
| GameLiftClient.ToUShort | Assets/Scripts/GameLiftClient.cs:69 | the ushort cast keeps the port modulo 2^16 and leaves a port in 0..65535 unchanged |
| GameLiftClient.PingAll | Assets/Scripts/GameLiftClient.cs:219-222 | the latency dictionary holds one entry per region, in region order, with its ping; it exists exactly when no ping throws |
| GameLiftClient.PingAllProbed | Assets/Scripts/GameLiftClient.cs:214-222 | the samples are exactly the fleet locations, each with its own ping |
| GameLiftClient.ProbedBest | Assets/Scripts/GameLiftClient.cs:226 | the best region is a fleet location whose ping is at most every location's ping |
| GameLiftClient.ProbedAcceptable | Assets/Scripts/GameLiftClient.cs:224 | the acceptable regions are exactly the locations pinging at or under 100 ms, each listed once, in non-decreasing ping order |
| GameLiftClient.RankRegions | Assets/Scripts/GameLiftClient.cs:206-241 | a ranking succeeds only with a non-empty fleet id and a non-empty compute list; RankRegionsContract and RankRegionsFailures characterise it |
| GameLiftClient.RankRegionsContract | Assets/Scripts/GameLiftClient.cs:206-234 | a successful ranking pinged every location, returns a location of minimal ping, and lists as acceptable exactly the locations at or under 100 ms, each once, sorted, the best first when any is acceptable |
| GameLiftClient.RankRegionsFailures | Assets/Scripts/GameLiftClient.cs:206-241 | the ranking fails exactly when the alias resolves to null or empty, a call throws, or the fleet has no location |
| GameLiftClient.Client.constructor | Assets/Scripts/GameLiftClient.cs:26-32 | no session id, the default region us-east-1, and no acceptable-region list |
| GameLiftClient.Client.GetBestRegion | Assets/Scripts/GameLiftClient.cs:206-241 | on a successful ranking returns the best region and assigns the acceptable regions; otherwise returns null and leaves them untouched |
| GameLiftClient.Client.GetConnectionInfo | Assets/Scripts/GameLiftClient.cs:39-138 | the best region is overwritten only by a non-null ranking; status and call log are those of the tier plan; on success address, 16-bit port and session id all come from the same player session; otherwise address, port and session id are unchanged |
| GameLiftClient.PingRegions | Assets/Scripts/GameLiftClient.cs:219-222 | the ping loop builds exactly PingAll's dictionary, or stops when a ping throws |
| GameLiftClient.SearchTiers | Assets/Scripts/GameLiftClient.cs:55-132 | the tier loops yield exactly the outcome and the concatenated call log of RunPlan |
| GameLiftClient.GetFleetRegions | Assets/Scripts/GameLiftClient.cs:257-276 | the loop builds exactly the distinct locations in first-seen order |
| Game.Wrap32 | Assets/Scripts/FPSPlayer.cs:171 | C# int arithmetic: congruent to the exact value modulo 2^32 and equal to it within the int range |
| Game.EvictOne | Assets/Scripts/EnvironmentManager.cs:258-264 | evicting one client ends its recorded player session first, if it has one, and then disconnects it; nothing else |
| Game.EvictionEffects | Assets/Scripts/EnvironmentManager.cs:252-265 | one or two effects per evicted client, ending with the disconnection of the last one; EvictionEffectsContents characterises the contents |
| Game.EvictionEffectsContents | Assets/Scripts/EnvironmentManager.cs:252-265 | evicting disconnects exactly the evicted clients, removes the recorded player session of each, and makes no other SDK call |
| Game.ShutdownEffects | Assets/Scripts/EnvironmentManager.cs:267-275 | the shutdown calls ProcessEnding and ends with the quit |
| Game.CollectStale | Assets/Scripts/EnvironmentManager.cs:240-250 | collects, without duplicates, exactly the tracked clients with now - lastSeen > 30 |
| Game.EnvironmentManager.constructor | Assets/Scripts/EnvironmentManager.cs:50-66 | both maps empty; the activity clock is set to now only on the server |
| Game.EnvironmentManager.HandleClientConnected | Assets/Scripts/EnvironmentManager.cs:91-112 | lastActivityTime becomes now; a tracked id throws and changes no heartbeat; otherwise the client is tracked at now, spawned and asked for its player-session id |
| Game.EnvironmentManager.HandleClientDisconnected | Assets/Scripts/EnvironmentManager.cs:114-118 | neither map changes |
| Game.EnvironmentManager.SendPlayerSessionId | Assets/Scripts/EnvironmentManager.cs:200-212 | an empty id changes nothing; a second id from the same client throws; otherwise the id is recorded and accepted through the SDK |
| Game.EnvironmentManager.HeartbeatReply | Assets/Scripts/EnvironmentManager.cs:222-232 | a tracked sender's timestamp and the activity time become now; an unknown sender changes nothing; the key set never changes |
| Game.EnvironmentManager.Tick | Assets/Scripts/EnvironmentManager.cs:234-277 | evicts exactly the clients with now - lastSeen > 30, keeps every other entry unchanged, ends their player sessions, and shuts down exactly when now - lastActivityTime > 300, by which time every client was evicted |
| Game.EnvironmentManager.Evict | Assets/Scripts/EnvironmentManager.cs:252-265 | removes exactly the given clients from both maps, leaves other entries unchanged, and emits their eviction effects in order |
| Game.EnvironmentManager.ReportDeath | Assets/Scripts/EnvironmentManager.cs:133-147 | nothing off-server; on the server the source's kills and then the victim's deaths go up by one, a missing id throws, and no health changes |
| Game.HealthAfterHit | Assets/Scripts/FPSPlayer.cs:167-199 | for any health and damage: when the exact difference is positive and within the int range, health becomes that difference; when it is at most zero and within range, a lethal hit ends at maxHealth if the death was reported, else 0; health in 1..maxHealth stays there under non-negative damage when the hit is not lethal or the death report returned |
| Game.FPSPlayer.constructor | Assets/Scripts/FPSPlayer.cs:46-61 | maxHealth and health 5, no kills, no deaths |
| Game.FPSPlayer.TakeDamage | Assets/Scripts/FPSPlayer.cs:167-180 | nothing off-server; on the server health follows HealthAfterHit, the death is reported exactly when the hit is lethal, no other player's health changes, and the counters change only through the death report |
| Game.FPSPlayer.HandleDeath | Assets/Scripts/FPSPlayer.cs:192-199 | reports the death, then restores full health only when the report returned; no other health and no counter outside the death report changes |
| Game.FPSPlayer.ReportHit | Assets/Scripts/FPSPlayer.cs:207-215 | off-server nothing changes; an unknown target throws; otherwise the target takes the same source id and damage |

## Left out

- The AWS SDK, the hosting SDK and ICMP ping are foreign calls. Their replies are inputs: `ProbeOracle`, `Replies`, and outcome flags such as `initOk`.
- The ping's round-trip time on a timeout is whatever the oracle returns. A zero from a timed-out ping is not told apart from a fast region.
- GameLiftClient.TryTier: the reply oracle is finite. Running out of replies ends a tier with the status `OutOfReplies`, which the real service never returns. This is what bounds the otherwise unbounded retry loop.
- GameLiftClient.Client.GetConnectionInfo: the player session's port is a plain integer. A null port, whose cast would throw after the address was assigned, is not modelled.
- `Initialize` of the client (credential setup) and the `GetPlayerSessionId` getter hold no logic.
- Unity coroutines, `WaitForSeconds` and RPC delivery are not modelled. Each handler and each tick is one atomic call, and outgoing RPCs are `Effect`s.
- `Time.time` is a float in the source and an integer here. The comparisons stay strict.
- Game.CollectStale: the dictionary's enumeration order is left open, so the order of evictions is not pinned down.
- Spawning, movement, camera, shooting and random spawn positions are float and physics code. A spawn is only the `SpawnPlayer` effect.
- UI refresh, `Debug.Log` and the singleton setup are presentation.
- `Application.Quit` is the `Quit` action. The model does not stop the process after it.
- `ConnectionMenu` (its fixed port 7777), `GameMenu` and `ConnectionManager` are not part of this model.
- `maxHealth` can be edited in the Unity inspector; here it is fixed at 5.
- Game.EnvironmentManager.ReportDeath: requires each client to own a player object of its own, which the networking layer guarantees.
- GameLiftClient.PingAll: the source reads the latency dictionary back in insertion order, which .NET does not document for `Dictionary`; the model fixes that order, and only which of several equally fast regions is chosen depends on it.
- GameLiftServer.Initialize: the port is a parameter in 7000..7999 instead of a random draw.
