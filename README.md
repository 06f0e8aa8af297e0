# Open Match director and matchmaking-function harness, modelled in Dafny

This project models two example programs built on the Open Match backend:

- **The match director** (`examples/director`).
  - It reads match profiles and waits until the backend reports enough players (`requirePlayers`).
  - It then launches one sender per profile (`main`).
  - Each sender opens a `ListMatches` stream and receives candidate matches (`listMatches`, `sendProfile`, `startSendProfile`; older variant `doSendProfile`).
  - Per match it runs a small saga (`allocateForMatch`): allocate a game server with retries, then delete the match, or assign it and release the server if assignment fails.
  - `AgonesAllocator` allocates game servers in an Agones fleet. It formats `address:port` connection strings and releases a server given such a string.
- **The matchmaking-function harness** (`serving-mmlogic-simple/apisrv`). `mmfRun` does the following:
  - reads a profile;
  - retrieves each of its player pools, which arrive as a stream of chunks;
  - hands the collected players to the matchmaking logic;
  - writes a proposal match object back.

Every remote call is an input taken from a script:
- A stream is a finite sequence of items and transport errors. A receive past its end returns io.EOF.
- A call that can fail is an `Option<string>` (`None` is success).

Each operation returns the **trace of calls** it made (`Messages.Call`, `Agones.ServerCall`, `Harness.LogicCall`). The properties are statements about these traces.

Each imperative operation is a `method` with its loops. Its `ensures` ties its result to a specification function. The properties are lemmas about those functions:
- `Pump`/`Listed` for `listMatches`;
- `Saga` for `allocateForMatch`;
- `Gate`/`Watch` for `requirePlayers`;
- `Drain`/`Rounds`/`SendLoop` for `doSendProfile`;
- `Release`/`Chosen` for `UnAllocate`;
- `Retrieved`/`Sweep`/`Mmf` for `mmfRun`.

Files:
- `messages.dfy`: the wire types, the call trace, and occurrence counting.
- `director.dfy`: `director.go`.
- `director_main.dfy`: `main.go`.
- `agones.dfy`: `agones.go`.
- `harness.dfy`: `harness.go`.

## Model

| member | source | states |
|---|---|---|
| Director.ListMatches | examples/director/director.go:125-157 | Creates the backend client and opens the stream, failing with the wrapped error when either fails. Then receives until io.EOF, a receive error, a MatchFunc error or a "stop", exactly as `Listed` describes. `ErrorOf` gives the wrapped error of each exit. |
| Director.PumpShape | examples/director/director.go:137-155 | The receive loop starts with a Recv. On every exit except io.EOF, its last call is CloseSend. |
| Director.PumpCloses | examples/director/director.go:138-155 | CloseSend is called exactly once on a receive error, a MatchFunc error or a stop. It is never called on io.EOF. |
| Director.PumpFeeds | examples/director/director.go:137-148 | The MatchFunc is called with the stream's items in arrival order: its arguments are the next items of the stream. |
| Director.PumpDrains | examples/director/director.go:138-141 | A session ends at io.EOF only after every item has gone to the MatchFunc. |
| Director.PumpBreaks | examples/director/director.go:142-145 | A receive error ends the session at the first broken item, with that item's error. Every item before it has gone to the MatchFunc. |
| Director.PumpCountsReceives | examples/director/director.go:137-156 | Every Recv except the last returned an item that went to the MatchFunc. |
| Director.PumpGoesOn | examples/director/director.go:147-156 | After a "continue" answer, the next call is another Recv. |
| Director.PumpStopsOnVerdict | examples/director/director.go:148-155 | After a "stop" or a MatchFunc error, the MatchFunc is never called again. The only later call is CloseSend. |
| Director.PumpEndsOnVerdict | examples/director/director.go:148-155 | A stop ends the session with the MatchFunc's "false, no error" answer as the second-to-last call. A MatchFunc failure ends it with the answer carrying that error as the second-to-last call. |
| Director.ListedCloses | examples/director/director.go:125-157 | listMatches returns nil exactly on io.EOF or a stop. CloseSend is called exactly once, as the last call, on a receive error, a MatchFunc error or a stop. It is never called on io.EOF or when the client or stream could not be opened. |
| Director.ListedFeeds | examples/director/director.go:137-156 | The matches passed to the MatchFunc are a prefix of the stream's items, in order. They are all of them when the session reached io.EOF. |
| Director.SessionLaunches | examples/director/director.go:36-59 | The callback (`OnMatch`, the sendProfile closure) launches allocateForMatch for exactly the acceptable matches it receives, in arrival order. `j` equals the number launched. |
| Director.SessionCap | examples/director/director.go:52-58 | The callback never fails. With a positive cap a session launches at most `maxMatchesPerSend` allocations, and the callback answers "stop" exactly when it has launched that many. |
| Director.SessionSkips | examples/director/director.go:43-50 | A match with a non-empty error or invalid properties gets the answer "continue". |
| Director.SendLaunches | examples/director/director.go:33-59 | sendProfile launches allocations for exactly the acceptable matches among those received, in arrival order. |
| Director.SendCap | examples/director/director.go:52-58 | Per sendProfile call, at most `maxMatchesPerSend` launches when the cap is positive. The stop happens exactly when the cap is reached. |
| Director.SendSkips | examples/director/director.go:43-50 | A skipped match never ends a sendProfile session. |
| Director.SendProfile | examples/director/director.go:33-64 | Runs one listMatches session with the counting callback, starting from `j = 0`. Returns the session's calls, the launched matches and the logged error (`SendOutcome`). |
| Director.Naps | examples/director/director.go:26-29 | After send `k` the loop sleeps exactly when `k < maxSends-1` or `maxSends <= 0`. |
| Director.NapsBetween | examples/director/director.go:26-29 | Over a full bounded run of `maxSends` sends there are `maxSends-1` sleeps. An unbounded run sleeps after every send. |
| Director.StartSendProfile | examples/director/director.go:16-31 | With `maxSends > 0`, sends the profile exactly `maxSends` times. With `maxSends <= 0`, it sends once per session script it is given. Each send is a full sendProfile, and the sleeps are `Naps`. |
| Director.FirstGrant | examples/director/director.go:74-82 | The index of the first successful allocation attempt. Every earlier attempt failed. |
| Director.AllocateForMatch | examples/director/director.go:66-119 | Retries Allocate, then deletes the match or assigns it and unallocates on failure, as `Saga` describes. Also returns the final value of the package-level `err`. |
| Director.SagaRetries | examples/director/director.go:74-82 | Allocate is called once per attempt up to and including the first success, and never afterwards. |
| Director.AftermathCounts | examples/director/director.go:83-117 | Calls other than Allocate all come after the retry loop. |
| Director.SagaGivesUp | examples/director/director.go:83-97 | When every attempt failed, DeleteMatch is called once for the match if a backend client could be created. Neither CreateAssignments nor UnAllocate is called. |
| Director.SagaAssigns | examples/director/director.go:99-109 | After a success, CreateAssignments is called once with the match's rosters and the granted connection string, if the backend client could be created. Otherwise it is not called. |
| Director.SagaReleases | examples/director/director.go:109-117 | After a success, UnAllocate is called with the granted connection string once if the assignment failed, and never otherwise. |
| Director.SagaKeeps | examples/director/director.go:99-117 | After a success the match is never deleted, and every assignment and release uses the granted connection string. |
| DirectorMain.DefaultPoolCount | examples/director/main.go:104-111 | The per-match count starts at 0 and is overwritten by each `defaultPool` pool with statistics, as `LastDefaultCount` describes. |
| DirectorMain.NoDefaultCount | examples/director/main.go:104-111 | With no `defaultPool` pool that has statistics, the count is 0. |
| DirectorMain.DefaultCountIsLast | examples/director/main.go:104-111 | The count is that of the last `defaultPool` pool that has statistics. |
| DirectorMain.RequirePlayers | examples/director/main.go:71-122 | Reads the empty profile, creates the client, opens the stream and scans matches against a strict threshold, as `Gate` describes. |
| DirectorMain.WatchOpens | examples/director/main.go:92-119 | The loop reports enough players exactly when a match above the threshold arrives before any receive error. |
| DirectorMain.WatchCloses | examples/director/main.go:112-119 | The loop calls CloseSend once when the threshold is exceeded, and never otherwise. |
| DirectorMain.WatchEndsClosed | examples/director/main.go:112-119 | Once the threshold is exceeded, CloseSend is the last call. |
| DirectorMain.WatchCloseError | examples/director/main.go:114-117 | Once the threshold is exceeded, the result is an error exactly when CloseSend fails, so a CloseSend failure gives (true, err). |
| DirectorMain.WatchRunsOut | examples/director/main.go:93-100 | When the threshold is never exceeded, there is no error exactly when the stream reached io.EOF. |
| DirectorMain.WatchStopsAtFirst | examples/director/main.go:93-119 | The gate stops at the first match above the threshold. It makes one Recv per item up to that match, then CloseSend, and returns (true, nil) or (true, "error closing stream for ListMatches(_): " + the close error). |
| DirectorMain.WatchBreaks | examples/director/main.go:93-100 | A receive error before any match above the threshold gives (false, "error reading stream for ListMatches(_): " + the error), after one Recv per item up to it. |
| DirectorMain.GateOpens | examples/director/main.go:71-122 | requirePlayers reports enough players exactly when the profile was read, the client created, the stream opened, and a match above the threshold arrived before any receive error. |
| DirectorMain.GateCloses | examples/director/main.go:112-121 | requirePlayers calls CloseSend exactly when it reports enough players, as its last call. It then fails exactly when CloseSend does. |
| DirectorMain.GateRunsOut | examples/director/main.go:92-121 | requirePlayers returns (false, nil) exactly when the stream reached io.EOF with every match at or below the threshold. |
| DirectorMain.ReceiveBatch | examples/director/main.go:146-209 | One session on an open stream. Receives until the cap, io.EOF, a receive error, a bad match, a failed allocation or a failed assignment, as `Drain` describes. |
| DirectorMain.DoSendProfile | examples/director/main.go:124-216 | Creates the client, then runs up to `maxSends` sessions, stopping at the first stream that fails to open, and sleeps between sessions, as `SendLoop` describes. |
| DirectorMain.DrainReceives | examples/director/main.go:146-156 | A session makes at most `maxMatchesPerSend` Recv calls, and none when the cap is not positive. |
| DirectorMain.DrainCloses | examples/director/main.go:146-208 | A session calls CloseSend exactly once when it ends at the cap, on a receive error, on a match with an error or invalid properties, or on a failed allocation. It never calls it when it ends at io.EOF or on a failed assignment. |
| DirectorMain.Halt | examples/director/main.go:146-208 | The receive attempt that ends a session: every earlier one was below the cap and a good delivery, and this one is at the cap, at io.EOF, or not a good delivery. |
| DirectorMain.DrainAllocates | examples/director/main.go:168-189 | A session allocates a game server for each good delivery before its exit, in arrival order. It allocates for the match at the exit only when that match has no error and valid properties. |
| DirectorMain.DrainClosesLast | examples/director/main.go:146-189 | A session that calls CloseSend calls it as its last call. |
| DirectorMain.DrainCapCloses | examples/director/main.go:146-153 | When every delivery up to the cap is good, the session ends with CloseSend because the cap was reached. |
| DirectorMain.DrainAssigns | examples/director/main.go:183-208 | CreateAssignments is called only for consecutive acceptable, allocated matches, in arrival order. Each uses the match's rosters and its connection string. A failed assignment is the session's last. |
| DirectorMain.DrainOneStrike | examples/director/main.go:162-208 | A bad match, a failed allocation or a failed assignment ends the session: every Recv except the last led to an assignment. |
| DirectorMain.DrainCalls | examples/director/main.go:146-209 | A session only receives, closes, allocates and assigns. |
| DirectorMain.RoundsAtMost | examples/director/main.go:136-215 | The sessions from `i` on open at most one stream per remaining send. While sends remain, they sleep exactly once fewer than they open: a failed open returns before the sleep, and the last send has none. |
| DirectorMain.RoundsAllOpen | examples/director/main.go:136-215 | When every stream opens, the sessions from `i` on run every remaining send, with a sleep between consecutive ones only. |
| DirectorMain.SendSessions | examples/director/main.go:124-216 | doSendProfile opens at most `max(maxSends, 0)` streams. When the client is created and `maxSends > 0`, it sleeps exactly once fewer than it opens. When every stream also opens, it runs exactly `maxSends` sessions with `maxSends-1` sleeps. |
| DirectorMain.Start | examples/director/main.go:32-62 | Reads the profiles and waits for players. Either is fatal on error, and the "enough" result is ignored. Then launches one sender per profile with a pause between launches, as `Startup` describes. |
| DirectorMain.WatchLaunchesNothing | examples/director/main.go:92-120 | The population gate launches no sender. |
| DirectorMain.StaggeredLaunches | examples/director/main.go:51-62 | The launch loop starts one sender per profile, in the profiles' order. |
| DirectorMain.StaggeredPauses | examples/director/main.go:59-61 | The launch loop makes `len(profiles)-1` pauses, only between launches. |
| DirectorMain.StartupLaunches | examples/director/main.go:32-62 | main starts a sender for every profile, in order, exactly when neither reading the profiles nor requirePlayers failed. Otherwise it starts none. |
| Agones.Itoa | examples/director/agones.go:148 | The decimal rendering of an integer has no ':' and begins with '-' exactly for negatives. |
| Agones.DigitsRoundTrip | examples/director/agones.go:148 | Reading back the decimal digits of `n` gives `n`. |
| Agones.ItoaInjective | examples/director/agones.go:148 | Two ports render alike exactly when they are equal, so comparing renderings compares port numbers. |
| Agones.Split | examples/director/agones.go:131 | strings.Split always returns at least one piece. |
| Agones.SplitJoin | examples/director/agones.go:131 | Joining the pieces with ':' gives the string back. No piece holds ':'. There is one piece more than there are ':' characters. |
| Agones.SplitWhole | examples/director/agones.go:131 | A string without ':' is a single piece. |
| Agones.SplitPair | examples/director/agones.go:131-134 | "a:b" with no ':' in a or b splits into exactly [a, b]. |
| Agones.AllocationMeta | examples/director/agones.go:103-126 | The labels are exactly {"openmatch/match": id}. The pools and rosters annotations are present exactly when their encoding succeeded, hold that encoding, and are the only annotations. |
| Agones.Allocate | examples/director/agones.go:72-101 | Sends the configured fleet allocation with that metadata. On failure returns "" and "Failed to create fleet allocation: " plus the error. On success returns "<address>:<first port>" and no error. |
| Agones.UnAllocate | examples/director/agones.go:129-174 | Splits the string, lists the servers, scans every server and every port, and deletes the last qualifying server, as `Release` describes. |
| Agones.ChosenIsLast | examples/director/agones.go:144-155 | The chosen server is the last one in the list that is "Allocated", at the IP part, and has a port rendering as the port part. None is chosen exactly when no server qualifies. |
| Agones.ReleaseRejects | examples/director/agones.go:131-135 | A string that does not split into exactly two pieces fails with the parse error before any server is listed. |
| Agones.ReleaseFindsNothing | examples/director/agones.go:156-158 | When no listed server qualifies, UnAllocate fails with "found no game servers…" and deletes nothing. |
| Agones.ReleaseTargetsLast | examples/director/agones.go:144-173 | UnAllocate lists the servers first and makes at most one delete. It succeeds exactly when it deleted a server and the delete succeeded. The server it deletes is the last qualifying one. |
| Agones.ConnStringSplits | examples/director/agones.go:131-134 | A connection string built for an address without ':' splits back into that address and the port's rendering. |
| Agones.ReleaseFinds | examples/director/agones.go:139-155 | When some listed server qualifies, UnAllocate lists and then deletes the last qualifying server. That is the given server when no later one qualifies. |
| Agones.AllocateThenRelease | examples/director/agones.go:86-155 | Round trip: the string Allocate returns parses back to the server's address and first port. While that server is listed as Allocated, UnAllocate deletes a server, and that very server when no later one qualifies. |
| Harness.FirstBreak | examples/functions/golang/serving-mmlogic-simple/apisrv/harness.go:77-87 | The number of chunks received before the stream broke: all earlier ones are chunks, and the one at that index is an error. |
| Harness.RetrievePool | examples/functions/golang/serving-mmlogic-simple/apisrv/harness.go:55-111 | One pool: receives chunks to the end, keeps the latest statistics, appends every player of every chunk one by one and counts them, as `Retrieved` describes. |
| Harness.ChunkInPlace | examples/functions/golang/serving-mmlogic-simple/apisrv/harness.go:93-98 | Every chunk's players appear as one block, after those of the chunks before it: arrival order is kept. |
| Harness.RetrievePools | examples/functions/golang/serving-mmlogic-simple/apisrv/harness.go:53-112 | Retrieves the pools in turn, overwrites each profile pool's statistics in place, and stops at the first failure, as `Sweep` describes. |
| Harness.MmfRun | examples/functions/golang/serving-mmlogic-simple/apisrv/harness.go:31-176 | Reads the profile, retrieves the pools, builds the match object and writes the proposal, as `Mmf` describes. |
| Harness.SweepStops | examples/functions/golang/serving-mmlogic-simple/apisrv/harness.go:71-87 | Once a pool fails, no later pool is retrieved. |
| Harness.SweepFills | examples/functions/golang/serving-mmlogic-simple/apisrv/harness.go:53-98 | After success, there is one collected pool per profile pool, in the same order. Each is the profile pool with all its stream's players under a new roster. Each profile pool carries the statistics of its stream's last chunk. |
| Harness.SweepCounts | examples/functions/golang/serving-mmlogic-simple/apisrv/harness.go:93-98 | The running player count equals the number of players in the collected rosters. |
| Harness.SweepFailsAt | examples/functions/golang/serving-mmlogic-simple/apisrv/harness.go:71-87 | A failed retrieval returns the error of the first failing pool. Every pool before it was retrieved. |
| Harness.SweepCalls | examples/functions/golang/serving-mmlogic-simple/apisrv/harness.go:55-112 | Pool retrieval only opens pool streams and receives. |
| Harness.MmfFails | examples/functions/golang/serving-mmlogic-simple/apisrv/harness.go:44-87 | When GetProfile, GetPlayerPool or a receive fails, mmfRun returns that error. It neither runs the matchmaking logic nor writes a proposal. |
| Harness.MmfProposesOnce | examples/functions/golang/serving-mmlogic-simple/apisrv/harness.go:164-175 | Once every pool was retrieved, mmfRun returns nil and writes exactly one proposal, as its last call. |
| Harness.MmfInsufficient | examples/functions/golang/serving-mmlogic-simple/apisrv/harness.go:117-130 | With no players, the proposal has the result id and the "insufficient players" error, and the matchmaking logic is not called. |
| Harness.MmfMatches | examples/functions/golang/serving-mmlogic-simple/apisrv/harness.go:117-152 | With players, the matchmaking logic is called once on the profile's properties and rosters and the collected pools. On failure the proposal keeps the result id and carries the error text. On success it takes the proposal id, results and rosters, with an empty error. The pools always carry the profile's pools with their last statistics. |

## Left out

- Concurrency. `go allocateForMatch`, the per-profile goroutines and the `sync.WaitGroup` in `main` run sequentially here. `sendProfile` records the matches it would hand to `allocateForMatch`, and `AllocateForMatch` is modelled on its own. The concurrent `allocateForMatch` goroutines all write the one package-level `err` (examples/director/director.go:74-83). So the stale `err` a run starts from (`AllocScript.staleErr`), and the `err` it ends with, depend on how the goroutines are scheduled.
  - The `main` goroutine closure captures the loop variable `p` (examples/director/main.go:54-57). Which profile each goroutine reads depends on scheduling, so the model assumes each goroutine reads its own profile.
- Time:
  - The exponential backoff with jitter and its two-minute budget become a finite sequence of attempt outcomes.
  - `time.Sleep` appears only as `Sleep` events in the traces.
  - The `maxWait` deadline of requirePlayers (examples/director/main.go:83) is not modelled as time. When it expires, `stream.Recv()` fails, so it appears as a `Broken` item in the gate's receive script (examples/director/main.go:94-100, `DirectorMain.WatchBreaks`).
  - `Stats.Elapsed` and the latency figures are not modelled.
- Logging, `stats.Record` and the debug branches of the harness have no effect on the model.
- Inputs and calls the model takes as given:
  - JSON validity (`gjson.Valid`) is a predicate parameter. JSON marshalling of pools and rosters is an optional input. `makeMatches` is a function parameter.
  - The player list extracted from the properties only feeds log lines, so it is left out.
  - `readProfiles`, `readProfile`, `getBackendAPIClient`, `allocateDGS` and `getConnectionString` are outcomes given as inputs. examples/director/helpers.go is not part of this model.
  - The Kubernetes and Agones clients are a given server list and a delete outcome.
- `beAPIConn.Close` (deferred) and the gRPC contexts are not modelled.
- Director.StartSendProfile: the unbounded case (`maxSends <= 0`) is observed over the number of session scripts supplied (`|sent| == |scripts|`). The model does not state that the loop never ends.
- Director.AllocateForMatch: an `AllocScript` with no attempts cannot occur, because the backoff ticker always ticks at least once. The model accepts it; with a nil stale `err` it then assigns the match to `""`.
- DirectorMain.DoSendProfile: takes one session script per send (`maxSends <= |sessions|`); the requirement is on the script, not on the program.
- Harness.MmfRun: takes one retrieval script per profile pool; the requirement is on the script, not on the program.
- Agones.Allocate: requires the allocated server to report at least one port. The source indexes `Ports[0]` and would panic otherwise.
- Agones.UnAllocate: the API errors are strings; `err.Error()` is their text.
- Integer widths: ports are `int32` in the source and the model uses unbounded integers. The decimal rendering is the same.
