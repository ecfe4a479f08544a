# oneClickAgent: verified models of its protocols

A gateway written in Go drives agents on remote devices, written in Python, over a reverse
tunnel. These Dafny modules model the parts of it that are hard to get right and prove what
their runs keep. `dafny verify dfyconfig.toml` checks everything.

| module | models |
|---|---|
| Prelude | an option type, minimum and maximum |
| Frames, AckTracking | the acknowledgement tracker and its retransmission schedule |
| TunnelHub, Routing | the hub with its connections: supersede, migration; routing and the registry beside it, with Register and Close interrupted anywhere |
| DeviceClient | the device end: acknowledge, deduplicate, dispatch |
| Delivery | gateway to device, as a step machine in which every call can be interrupted between its parts |
| Outbox | device to gateway: the durable outbox, a lossy link, deduplication per connection |
| Paths | containment of output file names, on the components of a path |
| FilePull, FilePuller | output files: the indexed receiver, the windowed sender, and both together |
| FileStage | input files, appended by the device in order of arrival |
| Stores, Scheduler, Pool, Reconcile | job and agent tables, the dequeue loop, every event that touches them, pool reconciliation |
| Submissions | submissions that overlap between their count and their insert |
| Tokens | refresh-token families (compare section 4.14.2 of RFC 9700) |
| RateLimit | the three sliding-window limiters |
| Dispatcher, DockerPool | the device's job dispatcher and its container pool |

Objects that the source updates in place are classes whose methods are proved against
functions on values; the results about whole runs are lemmas about those functions. Clocks are
integer parameters (nanoseconds in AckTracking and RateLimit, seconds elsewhere). Message ids,
row ids and token hashes are abstract and new when drawn. SHA-256 is an arbitrary function,
injective where a lemma says so. What the network, an agent, an event loop or a disk does is an
argument: a sequence of steps, a list of send results, a function from turn to answer.

## What the proofs found

The model follows the code where the code and its documentation differ, or where the obvious
claim fails. Each point names the members that state it: a failing run, the exact condition, or both.

- A frame accepted by `SendFrame` can be lost in two ways beyond the promised four cases. The
  closed check and the tracking are separate, and a `Register` between them migrates before the
  frame is tracked (`Delivery.SendRegisterRace`). And a `Register` may migrate into its connection
  after that has closed and unregistered (`Delivery.MigrationIntoClosedRace`). With uninterrupted
  calls the four cases are all there are (`Delivery.NoSilentLossAtomic`).
- "Processed once" (section 2 of docs/spec/05-tunnel-protocol.md) holds on the device for blocks
  of 10000 handled frames (`DeviceClient.RepeatAcrossBlocks`), and on the gateway per connection
  and for 300 seconds (`Outbox.ArrivalIsHandledIff`, `Outbox.HandledAgainAfterReconnect`).
- A connection superseded while its own close is under way takes the device off the registry,
  not off the map (`Routing.LateUnregisterRace`). A registration whose successor registers and
  closes before its own registry write leaves the device registered and not routed to
  (`Routing.LateRegisterRace`). Calls that do not overlap agree (`Routing.SerialCallsAgree`).
- A retried pull reuses the file id. A `CHUNK_OK` of the earlier attempt lets the retry finish
  with a chunk missing at the gateway (`FilePuller.StaleAckMissesAChunk`); the end frame stores
  the file exactly when every index arrived since the announcement (`FilePull.PullIsStoredIff`).
- The device appends input chunks in order of arrival, and the gateway sends them from
  concurrent goroutines (`FileStage.SwappedChunksAreRefused`, `FileStage.StagedIffEachInPlace`).
- `ORDER BY user_tier` sorts the text of the tier, so free precedes pro; the documentation and
  `TierPriority` promise the reverse. Submission also leaves the tier empty, which sorts first
  (`Scheduler.TextOrderKeepsPromiseIff`, `Scheduler.ProWaitsForFree`).
- The configured queue lifetime never reaches the jobs table: `UpdateStatus` writes a deadline of one hour (`Stores.WithStatus`).
- A failed dispatch changes a job's start time too, not only its expiry and update times (`Scheduler.Requeued`).
- A dispatch that times out leaves its agent held (`Pool.TimedOutDispatchKeepsItsAgent`); a late
  result frees the agent its job row names, even when that agent has moved on
  (`Pool.ResultFreesTheNamedAgent`). A drain that a foreign key refuses has already unlinked the
  agent's jobs; neither a result nor another drain frees it then (`Pool.RefusedDrainUnlinks`).
- Submissions that overlap pass the queue cap, by at most their number less one
  (`Submissions.OverlapExceedsCap`, `Submissions.OverlapBoundsQueue`).
- Re-creating agents after a reconciliation collides with UNIQUE(device_id, port) unless the
  kept rows leave the slots free (`Reconcile.RefillSucceedsIff`, `Reconcile.OnlyLastPortIsReplaced`),
  and failed or drained rows make the pool grow (`Reconcile.PoolGrowsByUncountedRows`).
- Logging out with a token that has been rotated leaves its successor alive
  (`Tokens.LogoutEndsFamilyIff`); two refreshes that both read first fork the family
  (`Tokens.ConcurrentRefreshesFork`).
- The limiters read the clock before they take the lock, so a skew of one nanosecond lets three
  requests into a second of the two-per-second limiter (`RateLimit.OneNanosecondIsEnough`).
- A JOB_RESULT whose send raises inside the polling loop is reported again, possibly with another
  status (`Dispatcher.OneOutcomeIff`, `Dispatcher.SucceededThenFailed`); an unreachable agent is
  never released (`Dispatcher.JobDispatcher.HandleJobDispatch`).
- The device's set of allocated ports does not survive a restart of the process (`DockerPool.RestartReusesPortIff`).

## Model

| member | source | states |
|---|---|---|
| AckTracking.AckTracker.Track | gateway/internal/tunnel/device_conn.go:667-675 | the frame is tracked from now with no retries, replacing an entry of the same id |
| AckTracking.AckTracker.Remove | gateway/internal/tunnel/device_conn.go:678-682 | the acknowledged id alone leaves the tracker |
| AckTracking.AckTracker.Pending | gateway/internal/tunnel/device_conn.go:685-694 | lists every tracked frame exactly once |
| AckTracking.AckTracker.RetransmitReady | gateway/internal/tunnel/device_conn.go:697-715 | lists the due frames and the exhausted ones, each once; due entries get a retry and a new send time, the others stay |
| AckTracking.AckTracker.RemoveFailed | gateway/internal/tunnel/device_conn.go:718-724 | exactly the listed ids leave the tracker |
| AckTracking.TrackerIsPerFrame | gateway/internal/tunnel/device_conn.go:728-768 | under any ticks a tracker treats each frame as if it were alone |
| AckTracking.RetransmitTiming | gateway/internal/tunnel/device_conn.go:697-768 | for any tick times: at most three resends, gaps of at least 1, 2 and 4 s, given up only after three and never before 7 s |
| AckTracking.GivenUpInNinthSecond | gateway/internal/tunnel/device_conn.go:728-768 | with ticks one second apart: the whole timetable, given up between 8 and 9 s after tracking |
| TunnelHub.OfferedTakesPrefix | gateway/internal/tunnel/device_conn.go:583-590 | the bounded queue takes a prefix of what it is offered, all of it if there is room |
| TunnelHub.DeviceConn.HandleFrame | gateway/internal/tunnel/device_conn.go:277-315 | a known msg_id is acknowledged and not handled; a new one is handled and remembered; an ACK removes the tracked frame |
| TunnelHub.DeviceConn.PruneDedup | gateway/internal/tunnel/device_conn.go:532-554 | exactly the ids older than 300 s are forgotten |
| TunnelHub.DeviceConn.RetransmitTick | gateway/internal/tunnel/device_conn.go:728-768 | the due frames are offered to the queue, each once, and the exhausted ones are dropped |
| TunnelHub.DeviceConn.MigratePending | gateway/internal/tunnel/hub.go:192-238 | every pending frame is tracked afresh on the new connection even when its queue is full |
| TunnelHub.MigratedEntries | gateway/internal/tunnel/hub.go:215-230 | tracking a listing of the old tracker renews each of its entries on top of the new one |
| TunnelHub.Hub.Register | gateway/internal/tunnel/hub.go:192-238 | the device maps to the new connection, the registry knows it, a superseded connection is closed and hands over all its frames |
| TunnelHub.Hub.Unregister | gateway/internal/tunnel/hub.go:241-255 | the map loses the device only if it still maps to this connection; the registry loses it in any case |
| TunnelHub.Hub.Close | gateway/internal/tunnel/device_conn.go:557-580 | only the first close has an effect, and that is to unregister |
| TunnelHub.Hub.SendFrame | gateway/internal/tunnel/hub.go:270-296 | the four results, and that a full queue leaves the frame tracked |
| Routing.RoutedToLatest | gateway/internal/tunnel/hub.go:192-255 | in every interleaving of the parts of registrations and closes, a device is routed to c exactly when c was mapped last and no close has unmapped it |
| Routing.SupersededCloseEvictsNobody | gateway/internal/tunnel/hub.go:241-255 | no part of closing a connection that is not routed to changes a route |
| Routing.RegistryAgreesIff | gateway/internal/tunnel/hub.go:192-255 | for every step of every run, exactly when map and registry agree on a device afterwards; the late registry write and the late removal are the two that part them |
| Routing.LateUnregisterRace | gateway/internal/tunnel/device_conn.go:557-580 | a run after which the device is routed to but not registered |
| Routing.SerialCallsAgree | gateway/internal/tunnel/hub.go:192-255 | when calls on a device do not overlap, then between them map and registry agree on it, it is routed to its latest connection while that is open, and the others are closed |
| Routing.LateRegisterRace | gateway/internal/tunnel/hub.go:192-238 | a run, every close uninterrupted, after which the device is registered but not routed to |
| DeviceClient.TunnelClient.HandleFrame | device/iagent_device/tunnel/client.py:158-228 | what is acknowledged, remembered and dispatched for every kind of frame; a failed acknowledgement changes nothing, and without a socket the frame is handled unacknowledged |
| DeviceClient.BlockStartIsDivision | device/iagent_device/tunnel/client.py:165-172 | the blocks between two clearings are the consecutive runs of 10000 handled frames |
| DeviceClient.ExactDedup | device/iagent_device/tunnel/client.py:165-172 | for every sequence of frames the set is exactly the current block, and no block repeats an id |
| DeviceClient.HandledIffNotInBlock | device/iagent_device/tunnel/client.py:165-172 | a frame is dispatched exactly when its id is not in the current block |
| DeviceClient.HandleDelivers | device/iagent_device/tunnel/client.py:158-182 | a received frame has been handled, now or earlier |
| DeviceClient.AtMostOnceInFirstBlock | device/iagent_device/tunnel/client.py:165-172 | up to 10000 handled frames there is no repeat at all |
| DeviceClient.RepeatAcrossBlocks | device/iagent_device/tunnel/client.py:165-172 | after a full block one new frame makes any of its ids handled again |
| Delivery.NoSilentLoss | gateway/internal/tunnel/hub.go:270-296 | in every interleaving an accepted frame is held by a live or migrating connection, handled, given up, or dropped in one of two ways |
| Delivery.HeldIffNotDropped | gateway/internal/tunnel/hub.go:192-238 | a tracked frame neither handled nor given up is held exactly when it was not dropped, and by one connection only |
| Delivery.DeliveredOncePerBlock | device/iagent_device/tunnel/client.py:158-182 | whatever is retransmitted and migrated, the device handles no id twice in a block |
| Delivery.SendRegisterRace | gateway/internal/tunnel/hub.go:270-296 | a run that loses an accepted frame between the closed check and the tracking |
| Delivery.MigrationIntoClosedRace | gateway/internal/tunnel/hub.go:215-230 | a run that loses an accepted frame because it is migrated into a connection already closed |
| Delivery.NoSilentLossAtomic | gateway/internal/tunnel/hub.go:192-296 | with uninterrupted calls: tracked on the current connection, handled, given up, or pending on a connection closed without successor |
| Outbox.DurableOutbox.EnqueueAndSend | device/iagent_device/tunnel/outbox.py:25-30 | the row is stored, and it was in the table when the send was tried |
| Outbox.DurableOutbox.ListUnacked | device/iagent_device/store/repositories.py:159-161 | the unacknowledged rows, each once, oldest first |
| Outbox.DurableOutbox.Flush | device/iagent_device/tunnel/outbox.py:32-44 | every unacknowledged row is offered to the tunnel once, oldest first, while it is stored |
| Outbox.DurableOutbox.Ack | device/iagent_device/tunnel/outbox.py:46-47 | the row is marked, an unknown id changes nothing |
| Outbox.DurableOutbox.DeleteAcked | device/iagent_device/store/repositories.py:163-165 | exactly the acknowledged rows go |
| Outbox.NothingEnqueuedIsLost | device/iagent_device/tunnel/outbox.py:25-47 | over every run an id was handled by the gateway or is resent by the next flush, and only handled ids are pruned |
| Outbox.HandledAgainOnlyAfterFiveMinutes | gateway/internal/tunnel/device_conn.go:277-292 | on one connection two handlings of an id are more than 300 s apart |
| Outbox.ArrivalIsHandledIff | gateway/internal/tunnel/device_conn.go:277-292 | an arriving copy is handled exactly when every handling on its connection is more than 300 s older than that connection's last prune |
| Outbox.HandledAgainAfterReconnect | gateway/internal/tunnel/device_conn.go:277-292 | a reconnect handles the same id again |
| Paths.SafeIff | gateway/internal/relay/relay.go:550-565 | the accepted names are exactly the relative ones without backslash or NUL whose components are not empty and do not climb |
| Paths.InnerDotsImpossible | gateway/internal/relay/relay.go:550-565 | the tests for an inner or final ".." never fire after the earlier ones |
| Paths.CleanIdempotent | gateway/internal/relay/relay.go:550-565 | cleaning twice is cleaning once and keeps the components |
| Paths.SafeNameStaysInside | gateway/internal/relay/relay.go:412-418 | joined to any directory, an accepted name is a strict descendant of it |
| Paths.SafeIffAlwaysInside | gateway/internal/relay/relay.go:550-565 | among relative names the accepted ones are exactly those that stay inside every directory |
| Paths.JoinIsConcatenationIff | gateway/internal/relay/relay.go:412-418 | Join is the cleaned directory, a slash and the cleaned name exactly when the directory is neither the root nor "." |
| Paths.ExtractedIff | gateway/internal/relay/relay.go:470-490 | which zip members pass both tests, and that these stay inside |
| Paths.DottedMemberSkipped | gateway/internal/relay/relay.go:486-490 | the second test refuses safe members that merely begin with two dots |
| FilePull.ChunksRebuild | device/iagent_device/files/puller.py:77-127 | the chunks in index order are the file |
| FilePull.PullTransfer.Store | gateway/internal/relay/relay.go:367-368 | one slot and its flag change in place |
| FilePull.FileRelay.OnFilePullBegin | gateway/internal/relay/relay.go:309-343 | the refusals in order, otherwise empty buffers under the file id |
| FilePull.FileRelay.OnFilePullChunk | gateway/internal/relay/relay.go:346-373 | the three refusals, otherwise the chunk in its slot and CHUNK_OK for its index |
| FilePull.FileRelay.OnFilePullEnd | gateway/internal/relay/relay.go:376-466 | the transfer is gone; stored and RECEIVED exactly when all flags are set, the digest matches, the name is safe and the disk works |
| FilePull.StoredEqualsSource | gateway/internal/relay/relay.go:362-405 | for every delivery of a file's frames among any traffic, what is stored is the file |
| FilePull.StoredHasTheDigest | gateway/internal/relay/relay.go:389-401 | with altered chunks what is stored still has the announced digest, so with an injective one it is the file |
| FilePull.StoredInsideOutputDir | gateway/internal/relay/relay.go:403-418 | whatever arrives, every stored file was announced for its job under its name, and its path is the base directory, jobs, that job's id, output, and the name's components |
| FilePull.AckMeansReceived | gateway/internal/relay/relay.go:367-371 | a CHUNK_OK given during a transfer means that the flag is set until the transfer ends |
| FilePull.ReceivedIff | gateway/internal/relay/relay.go:346-373 | a flag is set after any chunk frames exactly when it was set before or a decodable frame of that index was among them |
| FilePull.NothingMissingIff | gateway/internal/relay/relay.go:376-387 | the end frame finds no chunk missing exactly when every index has arrived since the announcement |
| FilePull.PullIsStoredIff | gateway/internal/relay/relay.go:376-466 | from any state: the end frame stores the file and reports it if every index has arrived since the announcement, in any order, and otherwise stores nothing and reports an error |
| FilePuller.Puller.HandlePullAck | device/iagent_device/files/puller.py:147-163 | the effect of chunk-level, file-level and unknown acknowledgements on events and statuses |
| FilePuller.Puller.AwaitAck | device/iagent_device/files/puller.py:95-110 | a wait ends well only on a confirmed chunk; otherwise there was no answer, or an error |
| FilePuller.Puller.SendFileOnce | device/iagent_device/files/puller.py:77-141 | indices go out once each in order with their chunk, at most 8 outstanding; the end frame only after all are confirmed; a failure is explained |
| FilePuller.NoChunkIsMissing | gateway/internal/relay/relay.go:367-387 | when the acknowledgements are the current transfer's, a finished attempt means that every index has arrived since the announcement |
| FilePuller.FinishedPullIsStored | device/iagent_device/files/puller.py:77-141 | sender and receiver together: a finished attempt followed by its end frame stores exactly the file |
| FilePuller.StaleAckMissesAChunk | device/iagent_device/files/puller.py:64-84 | an acknowledgement of an earlier attempt makes the end frame find a chunk missing |
| FileStage.FileStager.HandleBegin | device/iagent_device/files/stager.py:24-47 | the file is truncated and a staging begins |
| FileStage.FileStager.HandleChunk | device/iagent_device/files/stager.py:49-58 | the data is appended whatever its index |
| FileStage.FileStager.HandleEnd | device/iagent_device/files/stager.py:60-78 | the staging ends and its digest decides the report |
| FileStage.StagedIffJoined | device/iagent_device/files/stager.py:49-78 | staged exactly when the chunks joined as they arrived are the file |
| FileStage.InOrderIsStaged | gateway/internal/relay/relay.go:130-230 | arrival in sending order is staged |
| FileStage.JoinedIffPrefixInPlace | gateway/internal/relay/relay.go:166-207 | for every size and order: the arrivals join to the file exactly when the full chunks that come first are each in place and the others join to the rest |
| FileStage.StagedIffEachInPlace | gateway/internal/relay/relay.go:166-207 | for every size, when the last chunk arrives last: staged exactly when each arrival had the bytes due at its place |
| FileStage.SwappedChunksAreRefused | gateway/internal/relay/relay.go:166-207 | two chunks that begin with different bytes and arrive in the wrong order are refused |
| Stores.Database.UpdateStatus | gateway/internal/store/jobs.go:49-59 | the row's new status, finish time and queue deadline, no other row |
| Stores.Database.UpdateProgress | gateway/internal/store/jobs.go:61-68 | the status is taken over only if it is not terminal |
| Stores.Database.UpdateResult | gateway/internal/store/jobs.go:70-81 | the status is written unconditionally |
| Stores.Database.SetAgent | gateway/internal/store/jobs.go:83-90 | the job becomes dispatched to this agent and device from now |
| Stores.Database.ClearAgent | gateway/internal/store/jobs.go:92-97 | agent and device are unlinked, the status stays |
| Stores.Database.ExpireStale | gateway/internal/store/jobs.go:131-156 | exactly the queued jobs past their deadline and the dispatched ones past the timeout fail |
| Stores.Database.NextQueued | gateway/internal/store/jobs.go:114-129 | a dispatchable job that no other precedes, none only if there is none |
| Stores.Database.FindIdle | gateway/internal/store/agents.go:50-61 | the oldest idle agent without a user, none only if there is none |
| Stores.Database.AllocateAgent | gateway/internal/store/agents.go:63-70 | the agent becomes busy with this user's job |
| Stores.Database.ReleaseAgent | gateway/internal/store/agents.go:72-78 | the agent becomes idle and holds nothing, whatever it held |
| Stores.Database.DeleteAgent | gateway/internal/store/agents.go:169-172 | the row goes unless a job, a skill selection or a VNC session names it |
| Stores.Database.CreateAgent | gateway/internal/store/agents.go:18-37 | the row is added unless its port is taken on the device |
| Scheduler.Allocator.Match | gateway/internal/pool/allocator.go:155-178 | one dispatch, and what is left of it when the send fails |
| Scheduler.Allocator.DequeueNext | gateway/internal/pool/allocator.go:132-186 | after expiry: the first min(jobs, agents) by (tier text, age) and by age, i-th to i-th, nothing else changed but requeue marks; it ends for every finite pattern of failed sends |
| Scheduler.ScheduleIsDetermined | gateway/internal/pool/allocator.go:132-186 | without ties the same jobs go to the same agents whatever fails on the way |
| Scheduler.TextOrderKeepsPromiseIff | gateway/internal/model/types.go:53-62 | for which pairs of tiers the text order keeps the promised priority |
| Scheduler.ProWaitsForFree | gateway/internal/store/jobs.go:114-129 | a pro job is dispatched only after every waiting free job |
| Pool.AlwaysExclusive | gateway/internal/store/agents.go:50-87 | over every run: no two agents share a job, and an agent has a user exactly when it has a job, whose user it is, which is past queueing and names no other agent |
| Pool.NoJobIsHeldTwice | gateway/internal/store/agents.go:63-78 | over every run no job is held by two agents |
| Pool.HeldJobIsNeverReplaced | gateway/internal/pool/allocator.go:86-104 | no event gives a busy agent to another job |
| Pool.ProgressKeepsIff | gateway/internal/store/jobs.go:61-68 | a progress report breaks exclusivity exactly when it sets a held job to pending or queued |
| Pool.ResultFreesTheNamedAgent | gateway/cmd/gateway/main.go:171-187 | a result frees a busy agent exactly when the job's row names it |
| Pool.RefusedDrainUnlinks | gateway/internal/pool/allocator.go:450-500 | a drain refused by a foreign key keeps the agent but has unlinked its jobs; no result and no drain frees it afterwards |
| Pool.TimedOutDispatchKeepsItsAgent | gateway/internal/store/jobs.go:144-156 | an expired dispatch leaves its agent held, and cancelling no longer frees it |
| Pool.StateSyncSettles | gateway/cmd/gateway/main.go:202-225 | afterwards every active job of the device is reported or young, no agent holds a lost job, and a second sync changes nothing |
| Pool.QueueCapAlwaysHolds | gateway/internal/pool/allocator.go:55-66 | over every run no user has more queued jobs than the cap, through requeueing too |
| Submissions.OverlapBoundsQueue | gateway/internal/pool/allocator.go:55-66 | with at most n submissions of a user between count and insert, the user never has more than the cap plus n - 1 queued jobs |
| Submissions.OverlapExceedsCap | gateway/internal/httpapi/jobs_handler.go:79-92 | n overlapping submissions reach that bound |
| Pool.Gateway.SubmitJob | gateway/internal/httpapi/jobs_handler.go:57-156 | the three answers and the tables after each |
| Pool.Gateway.CancelJob | gateway/internal/httpapi/jobs_handler.go:230-275 | only the owner's unfinished job is cancelled, and its agent released |
| Pool.Gateway.OnJobAccepted | gateway/cmd/gateway/main.go:188-190 | the job becomes running |
| Pool.Gateway.OnJobProgress | gateway/cmd/gateway/main.go:161-170 | a non-terminal status is taken over |
| Pool.Gateway.OnJobResult | gateway/cmd/gateway/main.go:171-187 | the result is written, then the named agent released |
| Pool.Gateway.OnStateSync | gateway/cmd/gateway/main.go:202-225 | exactly the lost jobs of the device fail, and exactly their agents are released |
| Pool.Gateway.OnAgentStatus | gateway/cmd/gateway/main.go:226-228 | the agent's status alone changes |
| Pool.Gateway.DrainAgent | gateway/internal/pool/allocator.go:450-500 | when the row goes, when it is marked failed, when the delete is refused and what that leaves behind |
| Reconcile.PoolManager.EnsurePoolSize | gateway/internal/pool/allocator.go:267-315 | rows for the slots from the current count on, up to the first port that is taken |
| Reconcile.PoolManager.ReconcilePool | gateway/internal/pool/allocator.go:320-403 | promote, delete what is stale, refill or seed, in one equation on the agents table |
| Reconcile.FillSucceedsIff | gateway/internal/pool/allocator.go:267-315 | filling succeeds exactly when every slot's port is free |
| Reconcile.ReconciledRows | gateway/internal/pool/allocator.go:336-382 | reported creating agents are idle, other rows untouched, only deletable stale rows gone, new rows are creating |
| Reconcile.RowGoesIff | gateway/internal/pool/allocator.go:344-372 | a row goes exactly when it is the device's, unreported, named by no other row, and idle or creating for more than two minutes |
| Reconcile.ReconcileKeepsExclusive | gateway/internal/pool/allocator.go:320-403 | reconciliation keeps jobs and agents exclusive |
| Reconcile.RefillSucceedsIff | gateway/internal/pool/allocator.go:374-383 | the exact condition for refilling after a deletion, and that the count then is the earlier number of rows |
| Reconcile.OnlyLastPortIsReplaced | gateway/internal/pool/allocator.go:267-290 | in a contiguous pool one vanished agent is replaced only if it had the last port |
| Reconcile.PoolGrowsByUncountedRows | gateway/internal/store/agents.go:163-167 | a successful refill adds as many rows to the device as it has failed and drained ones |
| Reconcile.PoolIsSeededIff | gateway/internal/pool/allocator.go:384-392 | no counted agent remains exactly when none was kept and the first port is occupied |
| Reconcile.ReconcileIsIdempotent | gateway/internal/pool/allocator.go:320-403 | a second call with the same report at the same time changes no row |
| Tokens.TokenStore.Create | gateway/internal/store/tokens.go:15-24 | the row is stored under its hash |
| Tokens.TokenStore.Revoke | gateway/internal/store/tokens.go:37-41 | the row's revocation time is set |
| Tokens.TokenStore.RevokeFamily | gateway/internal/store/tokens.go:43-47 | every unrevoked row of the family is revoked, no other row changes |
| Tokens.TokenStore.RevokeAllForUser | gateway/internal/store/tokens.go:49-53 | every unrevoked row of the user is revoked, no other row changes |
| Tokens.TokenStore.DeleteExpired | gateway/internal/store/tokens.go:55-61 | exactly the expired rows go |
| Tokens.AuthHandlers.HandleLogin | gateway/internal/httpapi/auth_handler.go:139-149 | a new family with one live token |
| Tokens.AuthHandlers.HandleRefresh | gateway/internal/httpapi/auth_handler.go:163-236 | succeeds exactly for a live token that can be succeeded; a stored dead token revokes its family |
| Tokens.AuthHandlers.HandleLogout | gateway/internal/httpapi/auth_handler.go:238-260 | which families end |
| Tokens.OneUnrevokedPerFamily | gateway/internal/httpapi/auth_handler.go:163-236 | over every run a family has at most one unrevoked token |
| Tokens.RefreshesAtMostOnce | gateway/internal/httpapi/auth_handler.go:177-226 | over every run a token refreshes successfully at most once |
| Tokens.DeadStaysDead | gateway/internal/store/tokens.go:43-47 | a family without unrevoked token never has one again |
| Tokens.ReplayKillsFamily | gateway/internal/httpapi/auth_handler.go:183-189 | presenting a spent or expired stored token ends the family in every later state |
| Tokens.LostSuccessorEndsFamily | gateway/internal/httpapi/auth_handler.go:191-226 | a refresh that cannot store its successor ends the family |
| Tokens.LogoutEndsFamilyIff | gateway/internal/httpapi/auth_handler.go:238-252 | logging out with a token ends a live family exactly when the token is the user's and not revoked |
| Tokens.LogoutEverywhere | gateway/internal/httpapi/auth_handler.go:252-255 | logging out without a token ends all the user's families |
| Tokens.ConcurrentRefreshesFork | gateway/internal/httpapi/auth_handler.go:177-226 | two refreshes that both read first leave two live tokens in one family |
| RateLimit.Limiter.Allow | gateway/internal/httpapi/middleware.go:76-104 | accepted exactly when the recent list is below the limit; only then the trimmed list with the new time is stored |
| RateLimit.Limiter.Cleanup | gateway/internal/httpapi/middleware.go:56-74 | every list is trimmed and empty ones are deleted |
| RateLimit.SameDecisionAsFullLog | gateway/internal/httpapi/middleware.go:315-367 | the trimmed lists decide as counting over the full log would |
| RateLimit.EveryWindowWithinLimit | gateway/internal/httpapi/middleware.go:52-104 | under a monotone clock no window holds more accepted requests than the limit |
| RateLimit.ShippedLimiters | gateway/internal/httpapi/middleware.go:315-428 | the same for the three limiters with their windows and cleanups |
| RateLimit.SwitchedOffAcceptsAll | gateway/internal/httpapi/middleware.go:372-402 | the job limiter with a limit of 0 or less accepts every request |
| RateLimit.LateRequestExceedsLimit | gateway/internal/httpapi/middleware.go:79-100 | for every limit from two on and every skew: a request handled later than its clock reading makes one too many in a window |
| RateLimit.OneNanosecondIsEnough | gateway/internal/httpapi/middleware.go:52-104 | the per-second limiter at two accepts three within a second, with a skew of one nanosecond |
| Dispatcher.JobDispatcher.HandleJobDispatch | device/iagent_device/jobs/dispatcher.py:63-127 | the frames sent are the transcript that agent, clock and outbox determine; exactly when the agent stays busy |
| Dispatcher.JobDispatcher.RunJob | device/iagent_device/jobs/dispatcher.py:84-100 | starting and polling add their part of the transcript, and raise exactly when it says so |
| Dispatcher.JobDispatcher.PollProgress | device/iagent_device/jobs/dispatcher.py:129-252 | the polling loop, turn by turn, sends what the recursive log says |
| Dispatcher.OneOutcomeIff | device/iagent_device/jobs/dispatcher.py:63-252 | for every run: no outcome exactly when the acceptance raises; otherwise exactly one exactly when the first outcome that polling sends does not raise; so exactly one when sends work |
| Dispatcher.OutcomeComesLast | device/iagent_device/jobs/dispatcher.py:63-252 | acceptance first; all progress before the last outcome; earlier outcomes failed to go out; only housekeeping after it |
| Dispatcher.OutcomeIsVerdict | device/iagent_device/jobs/dispatcher.py:63-252 | with working sends the one outcome is the rejection or what the agent's answers call for |
| Dispatcher.SucceededThenFailed | device/iagent_device/jobs/dispatcher.py:129-252 | a run that reports the same job succeeded and then failed |
| Dispatcher.VerdictIff | device/iagent_device/jobs/dispatcher.py:129-252 | reported succeeded or cancelled exactly when a turn reached before the deadline and before five failures in a row says so |
| DockerPool.DockerManager.AllocatePort | device/iagent_device/docker/manager.py:127-132 | the smallest free port of the range, none only if all are allocated |
| DockerPool.DockerManager.EnsurePool | device/iagent_device/docker/manager.py:53-73 | shrinks or grows the table and the port set as the value-level function says |
| DockerPool.DockerManager.CreateAgentWithId | device/iagent_device/docker/manager.py:75-84 | an existing id changes nothing |
| DockerPool.DockerManager.CheckHealth | device/iagent_device/docker/manager.py:152-172 | restarts exactly when the probe fails and the count stays within the limit |
| DockerPool.EnsuredSize | device/iagent_device/docker/manager.py:53-73 | idle plus busy becomes the larger of desired and busy, busy agents stay, the oldest idle ones are kept; fails only when the ports run out |
| DockerPool.PoolStaysGood | device/iagent_device/docker/manager.py:127-172 | over every run ports are distinct, in range and allocated, and restarts equal failed checks up to the limit |
| DockerPool.RestartReusesPortIff | device/iagent_device/docker/manager.py:127-135 | after a process restart the next port collides exactly when some row has the first one |

## Left out

- `CloseDevice`, `CloseAll`, the heartbeat check, `Hub.pending` and the disabled frame rate check: no shown caller, or not modelled beyond Close and Unregister.
- `TrackedFrame` is a value in the tracker's map, not a shared object: aliasing of entries between a pass of the retransmitter and the map is not captured.
- The device's `send_with_ack` and `_retransmit_loop` follow the rule proved for the gateway's tracker and have no caller for outgoing frames.
- `_send_file` (three attempts, errors swallowed after the last) and `pull_outputs`, which reports a file as relayed in any case.
- Concurrent pulls share the sender's dictionaries only by file id; the model runs one attempt and lets acknowledgements of other files pass by. The branch that creates a missing event is proved dead and is not written out.
- `PushFile` appears only through the orders in which its chunks can arrive; its eight slots are not modelled.
- A negative chunk count in an announcement makes the gateway panic and is not modelled.
- The zip extraction itself, file rows in the database and their links to jobs; only the name tests are modelled. `filepath.Clean`, `Join` and `Rel` belong to Go's standard library and are not part of this repository; the model follows their documented rules on Unix separators.
- The connection status a disconnect writes, names, audit, metrics and everything behind HTTP, WebSocket, Docker and VNC.
- The dispatch payload and `redispatchLostJobs`: they send frames and change no row.
- The SQL types are not modelled beyond what ordering and uniqueness need; `FindIdle` and `Allocate` are one step, as `FOR UPDATE SKIP LOCKED` intends.
- Error returns of the stores other than the two constraints: statements succeed.
- Dispatcher: exceptions of the local job table, cancellation of the coroutine, event sequence numbers and the percent of repeated progress frames are not part of the claims.
- DockerPool: a row is created and becomes idle in one step; adoption of unknown containers at boot, which writes port 0, is outside the runs that `PoolStaysGood` covers.
- VNC relay, skills, credentials, organisations, rollout strings and the web front end: input and output, or easy members.
