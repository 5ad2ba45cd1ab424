# Verification of the exec pipeline and the sandbox lifecycle

A Dafny 4.11 model of how the sandbox adapter runs a command and hands out its output: the guest
agent's two pumps, the gRPC stream and the client's forwarding goroutine, the drain into an
`ExecRecord`, the record's sequence-numbered log with its non-blocking fan-out, the Server-Sent
Events wire and resumption over it, the registry over the `execs` table across crashes, and the
sandbox manager over pods, rows and agent connections. `dafny verify dfyconfig.toml` checks it all.

How it is laid out:

- `exec_types.dfy`, `exec_log.dfy`: chunks, and a record's state as a value, with what any history of
  `Append` and `finish` calls makes of it. `exec_record.dfy`: the record and its channels as classes
  updated in place, proved against those functions.
- `fanout.dfy`: the same record as a transition system. Committing happens under the lock; sends
  happen outside it, one channel at a time, with subscribe, receive and cancel steps in between.
- `decimal.dfy`, `base64.dfy`, `json_object.dfy`, `event_stream.dfy`: numbers as printed and parsed, base64
  (section 4 of RFC 4648), a reader of one-member JSON objects (RFC 8259), and an event-stream reader written
  from sections 9.2.5 and 9.2.6 of the WHATWG HTML Living Standard. `sse_wire.dfy`: the adapter's wire against
  these readers. `sse_session.dfy`: the event loop, and a client that reconnects until it has a finished exec's
  whole log. `exec_reload.dfy`: the same client when memory has lost the exec. `live_session.dfy`: a client that
  connects while it runs.
- `guest_pipeline.dfy`: child, pipes, pumps, mutex, handler, stream, forwarding goroutine and drainer
  as one transition system in which the stream may break at any step. `sequential_read.dfy`: the
  reading order the agent gave up. `guest_routing.dfy`: the agent's table of running execs.
- `exec_rows.dfy`, `registry_store.dfy`, `registry.dfy`: rows, the two in-memory maps as a value, and
  the registry class. `drain.dfy`: the drain, for every stream cut anywhere. `registry_runs.dfy`: all
  interleavings of registrations, drains, failing writes, deletions, crashes and restarts.
- `end_to_end.dfy`: from the child's writes to what a client decodes.
- `sandbox_manager.dfy`, `sandbox_runs.dfy`: the manager class, and all its runs with faults at every
  external call.

External calls (cluster, database, network, clock, child process) are steps or parameters that may
fail; a failing statement changes nothing. In a transition system the events of a run are arbitrary.
Fields named as history (`missed`, `upto`, `joinedAt`, `sent`, `lost`, `leaked`, `calls`) exist for the statements only.

Where the code does less than a comment or name suggests, the code is modelled and the limit is proved:

- A chunk dropped for a slow live subscriber can be followed by a delivered one, so reconnecting with
  the last id can skip it (`LiveGapIsReachable`); it loses nothing exactly when no missed number lies
  below the last one seen (`ResumeLosesNothingIff`). Over a whole session, live connections and then later ones,
  it loses and repeats nothing exactly when, besides, no heartbeat made it forget where it was
  (`LiveThenFinishedIff`, `HeartbeatRepeatsAChunk`). From the log of a finished exec
  resumption is complete for a client that does not forget.
- That holds while memory keeps the record. After a sandbox's deletion or a restart the registry serves what the
  row reloads as, at most one chunk per stream and Done, numbered anew, so a position in the old log may skip
  bytes or lie beyond the new end (`ReloadCompletesIff`, `ReloadLosesTheRest`, `RestartTellsIff`). Reloaded while
  the row still says running, its stream never ends (`RunningRowNeverEnds`).
- Live sends are not filtered by `fromSeq`: a subscription beyond the log's end sees the chunks that
  come next (`Start` in `SeesLogExceptMissed`).
- A `cancel` between a producer's snapshot and its send makes that send panic (`WindowIsReachable`);
  a run is safe from it exactly when no such cancel landed (`SafeIffNoWindowCancel`), and after one no commit
  happens any more.
- `Append` does not look at the status, so "Done is last" rests on the agent sending Done last;
  `GetOutput`, which reads the status before the output, answers for good exactly when nothing was
  appended after the end or the output was already truncated (`FinishedRepliesFinalIff`).
- An empty `Append` at a full cap flags a record that lost nothing; the drain's guard prevents it.
- By the letter of the standard a reader's id buffer starts empty on each connection, so a heartbeat
  before the first event of a reconnection makes it forget its position (`EmptyIdBufferForgetsIff`), and
  it stays out of step (`NothingLostOrRepeatedIff`). Readers of both kinds are covered.
- The final UPDATE has no status guard; that terminal rows stay as they are is proved from the
  record's write-once fields and from each row having one writer.
- Two registrations of one id in flight at once can break the sandbox index: exactly when a rollback meets
  the other's record under another sandbox (`IndexExactIff`). Ids are random.
- A pod whose deletion failed is never removed by the manager.

## Model

| member | source | states |
|---|---|---|
| ExecLog.RunWellFormed | adapter/internal/exec/record.go:96-112 | after any history of calls on a new record the numbers are dense, `nextSeq` is the log's length, `outputBytes` is the bytes held and at most the clamped cap; a running record has no Done chunk and a finished one exactly one, with its exit code |
| ExecLog.CapIsTakenIff | adapter/internal/exec/record.go:96-99 | a cap is taken as given if and only if it is 1 byte to 100 MiB; anything else means 100 MiB |
| ExecLog.OneEntryPerCall | adapter/internal/exec/record.go:177-205 | while nothing was cut off, the log has one entry per append, and one for the first finish, in order |
| ExecLog.CapKeepsPrefix | adapter/internal/exec/record.go:177-205 | the log holds exactly the first min(T, cap) of the T bytes offered, each under its stream, in order |
| ExecLog.TruncatedExactly | adapter/internal/exec/record.go:183-192 | truncated if and only if more than the cap was offered or an empty Append came at a full cap |
| ExecLog.TruncatedIffOverCap | adapter/internal/api/exec.go:433-438 | without empty Appends, as the drain guarantees, truncated if and only if T exceeds the cap |
| ExecLog.EmptyAppendFlagsTruncation | adapter/internal/exec/record.go:183-188 | a concrete history that is flagged truncated though nothing was lost |
| ExecLog.FirstFinishWins | adapter/internal/exec/record.go:226-256 | Complete and Errored are idempotent: the first one decides status, exit code, reason and time for good |
| ExecLog.RunExtends | adapter/internal/exec/record.go:239-256 | the log only grows, and terminal fields never change, whatever calls follow |
| ExecLog.SeqNumbersFit | adapter/internal/exec/record.go:198-205 | every number issued to a drained record is at most the cap, so neither it nor its successor leaves 64 bits |
| ExecLog.OutputIsProjection | adapter/internal/exec/record.go:370-382 | each returned buffer is the log's bytes of that stream, in log order |
| ExecLog.ReplayIsSlice | adapter/internal/exec/record.go:289-300 | a replay delivers exactly the contiguous slice of up to 64 entries from `fromSeq` |
| ExecLog.LoadedWellFormed | adapter/internal/exec/record.go:122-167 | a record rebuilt from a row satisfies the record invariant, with its Done chunk last unless running |
| ExecLog.LoadedOrder | adapter/internal/exec/record.go:150-166 | its first chunks are all of stdout, if there is any, and then all of stderr |
| ExecRecords.FanOut | adapter/internal/exec/record.go:216-223 | every channel of the snapshot is offered the chunk once; a full one is left as it was |
| ExecRecords.ExecRecord.constructor | adapter/internal/exec/record.go:96-112 | a running record with the cap clamped to 100 MiB and no chunks |
| ExecRecords.ExecRecord.FromDB | adapter/internal/exec/record.go:122-167 | the record a row loads as, chunk by chunk |
| ExecRecords.ExecRecord.Append | adapter/internal/exec/record.go:177-224 | the new record state, and for each registered channel exactly the stored (capped) chunk offered, or nothing when the cap is used up |
| ExecRecords.ExecRecord.Finish | adapter/internal/exec/record.go:239-270 | the first call makes the record terminal and offers Done to every channel; later ones change nothing |
| ExecRecords.ExecRecord.Subscribe | adapter/internal/exec/record.go:285-322 | the channel holds the replay, and is registered if the exec runs and closed if not |
| ExecRecords.ExecRecord.Cancel | adapter/internal/exec/record.go:313-320 | unregisters and closes once; otherwise nothing happens |
| ExecRecords.ExecRecord.Output | adapter/internal/exec/record.go:370-382 | the captured bytes per stream |
| Fanout.NextKeepsInv | adapter/internal/exec/record.go:177-322 | every step of producer, subscriber and canceller keeps the fan-out invariant |
| Fanout.SeesLogExceptMissed | adapter/internal/exec/record.go:207-223 | in every reachable interleaving, received then buffered is the log from the subscription's start up to the last attempt, less exactly the numbers attempted on a full buffer, none of them among the first 64 |
| Fanout.DeliveredInOrder | adapter/internal/exec/record.go:272-306 | deliveries are strictly increasing, equal the log's entries, and are at or above `fromSeq` when it was not beyond the log |
| Fanout.SendGoesThroughIff | adapter/internal/exec/record.go:216-223 | a send puts the chunk into the channel if and only if one of its 64 slots is free, and touches nothing else |
| Fanout.SubscribeReplays | adapter/internal/exec/record.go:285-311 | a subscription begins with the first 64 entries from `fromSeq`, and is served further if and only if the exec runs |
| Fanout.ReceiveTakesOldest | adapter/internal/exec/record.go:313-320 | a receive takes the oldest buffered chunk, and a cancel only unregisters |
| Fanout.MissedIffFoundFull | adapter/internal/exec/record.go:207-223 | over every run, a number is missed if and only if the send or the replay that attempted it found 64 chunks buffered |
| Fanout.NeverFullMissesNothing | adapter/internal/exec/record.go:280-306 | a live subscriber for which no attempt of the run found 64 chunks buffered has the whole log from its start, counting the chunk in flight to it, even if it subscribed between unlock and sends |
| Fanout.ResumeLosesNothingIff | adapter/internal/exec/record.go:169-172 | resuming after the last number seen loses nothing if and only if no missed number is below it |
| Fanout.LiveGapIsReachable | adapter/internal/exec/record.go:218-222 | a reachable state in which a chunk was dropped and a later one delivered |
| Fanout.DoneSeenMeansFinished | adapter/internal/exec/record.go:387-401 | over every run of output appends and terminal finishes, whoever reads Done finds the record terminal, with that exit code |
| Fanout.SafeIffNoWindowCancel | adapter/internal/exec/record.go:207-223 | a run has not panicked, and cannot at any send to come of its snapshot, if and only if no cancel landed between a snapshot and its send |
| Fanout.WindowCancelDooms | adapter/internal/exec/record.go:313-320 | after a cancel in that window nothing is committed any more, and the send to that channel panics |
| Fanout.WindowIsReachable | adapter/internal/exec/record.go:210-223 | a run that ends in that panic |
| Fanout.UndisturbedSends | adapter/internal/exec/record.go:216-223 | undisturbed, the sends in any order amount to one offer to each channel of the snapshot, as the class method states, and to nothing else |
| Decimal.UnsignedRoundTrip | adapter/internal/api/exec.go:378-380 | printing then parsing a number gives it back if and only if it fits 64 bits |
| Decimal.ResumeAfter | adapter/internal/api/exec.go:376-382 | an id fed back resumes right after it if and only if it is not the largest 64-bit number, which wraps to 0 |
| Decimal.ResumeFromAny | adapter/internal/api/exec.go:376-382 | for every header: a decimal number resumes after it, whatever its leading zeros, and anything else starts at 0 |
| Base64.Base64RoundTrip | adapter/internal/api/exec.go:575-584 | every byte string survives encoding and decoding |
| Base64.StandardVectors | adapter/internal/api/exec.go:575-584 | the encoding is the standard one, by test vectors of RFC 4648 |
| EventStream.FirstLine | adapter/internal/api/exec.go:593 | a terminated line splits off the stream, and an unterminated one is no line |
| SseWire.EventRoundTrip | adapter/internal/api/exec.go:562-595 | kind, sequence number, bytes and exit code of a chunk are what a reader finds that parses the event's JSON and looks up `data` or `exit_code` by name |
| JsonObject.TextMemberIsRead | adapter/internal/api/exec.go:565-567 | a JSON reader finds the one member of the bodies of output events, by name and text |
| JsonObject.NumberMemberIsRead | adapter/internal/api/exec.go:570-572 | and that of the done event, by name and number |
| SseWire.CutAnywhere | adapter/internal/api/exec.go:397-419 | wherever the connection breaks, the standard's reader has dispatched exactly the events that arrived whole |
| SseWire.SseRoundTrip | adapter/internal/api/exec.go:397-419 | for every sequence of chunks with heartbeats anywhere, cut anywhere, and whatever the reader's ID buffer starts with: it decodes, from the JSON and base64 of their events, exactly the chunks that arrived whole, and its last id resumes right after the last of them, or is that buffer if only heartbeats arrived |
| SseWire.EmptyIdBufferForgetsIff | adapter/internal/api/exec.go:411-415 | when a reader whose id buffer starts empty forgets its position: exactly when it had one, a heartbeat came through and no event did |
| SseSession.EventLoop | adapter/internal/api/exec.go:397-419 | what the loop writes while the producer goes on sending: heartbeats, and events up to Done, or until the channel is closed and drained, or the client has gone |
| SseSession.LoopDelivers | adapter/internal/api/exec.go:397-409 | a loop that keeps up writes the replay and then everything sent, in order, up to Done |
| SseSession.GetOutputStream | adapter/internal/api/exec.go:376-420 | one connection, to a running or a finished exec: the replay from the header's position, then what is sent meanwhile, with its heartbeats; it leaves no subscription behind |
| SseSession.ConnectKeepsInStep | adapter/internal/api/exec.go:376-409 | a connection to a finished exec, broken anywhere, neither loses, repeats nor reorders a chunk unless it makes the client forget its position; an unbroken one brings the next 64 |
| SseSession.NothingLostOrRepeatedIff | adapter/internal/api/exec.go:342-349 | over any number of connections to one log the client holds exactly the log from its base to its position if and only if no connection that found it past the start brought a whole heartbeat and no event to a reader whose ID buffer starts empty |
| SseSession.RebuiltIffEnoughRounds | adapter/internal/exec/record.go:285-311 | unbroken connections to one log that make nobody forget rebuild the rest of it if and only if there are ceil((n - base) / 64) of them |
| SseSession.NothingForgottenOnTheWay | adapter/internal/api/exec.go:397-415 | up to that many unbroken connections make no reader forget |
| LiveSession.LiveThenFinishedIff | adapter/internal/api/exec.go:342-349 | a client that connects while the exec runs, is cut off and reconnects any number of times, and after the end makes enough unbroken connections that do not make it forget, holds the whole log if and only if none of its live connections made it forget its position and no chunk dropped for one of them lies below the position it resumed from after it |
| LiveSession.HeartbeatRepeatsAChunk | adapter/internal/api/exec.go:411-415 | a run with nothing dropped in which a heartbeat on a quiet reconnection leaves a standard reader with a chunk too many |
| ExecReload.ReloadCompletesIff | adapter/internal/exec/registry.go:160-172 | a client that goes on, unbroken, with the record reloaded from the row: Done reaches it if and only if its position lies within the reloaded log, and it is complete if and only if, besides, the chunks it had carry the bytes of those it skips |
| ExecReload.ReloadStrands | adapter/internal/exec/registry.go:160-172 | a client whose position lies beyond the reloaded log is sent nothing, however often it reconnects, as long as no connection makes it forget that position |
| ExecReload.RunningRowNeverEnds | adapter/internal/exec/record.go:150-166 | a record reloaded while its row still says running has no Done, and no connection to it writes one |
| ExecReload.ReloadLosesTheRest | adapter/internal/exec/record.go:150-166 | a concrete exec of three chunks of which such a client never gets the last, nor Done |
| ExecReload.RestartTellsIff | adapter/internal/exec/registry.go:54-72 | after a crash of a running exec a client is told of its end if and only if it had received nothing |
| GuestPipeline.NextKeepsControl | guest-agent/server.go:110-177 | every step of child, pumps, handler, stream and client keeps the control invariant |
| GuestPipeline.SomeStepEnabled | guest-agent/server.go:110-159 | in every unfinished state some step is enabled, the stream broken or not |
| GuestPipeline.EveryRunFinishes | guest-agent/server.go:110-177 | no deadlock and no livelock: every run is bounded by the measure, and a state where nothing can move is finished |
| GuestPipeline.BoundsOfSteps | guest-agent/server.go:110-128 | a pipe takes 65536 bytes, a pump reads up to 4096 at once, and the client's channel takes 16 frames, exactly |
| GuestPipeline.NextConserves | guest-agent/server.go:120-147 | until the stream breaks no step loses, adds or reorders a byte of either stream |
| GuestPipeline.DrainedIsMerge | adapter/internal/agent/client.go:87-105 | unbroken, the drainer gets a merge of both outputs in non-empty frames and then one Done with the child's code, 128 plus the number of a signal, or 0 if waiting failed; broken, a prefix of that |
| GuestPipeline.SharedCodes | guest-agent/server.go:159-177 | two endings share a code if and only if they are equal, or a signal and an exit with 128 plus its number, or an exit with 0 and a failed wait |
| SequentialRead.SequentialReadSticksIff | guest-agent/server.go:110-112 | reading stdout to its end first can get stuck if and only if the child writes more than 65536 bytes, what a pipe holds, to stderr |
| SequentialRead.AllReadIsAll | guest-agent/server.go:110-112 | when such a reader does end it has read all the child wrote, which had no more than that on stderr |
| GuestRouting.AgentServer.RegisterExec | guest-agent/server.go:40-48 | is the registration step of the transition system and keeps the table routed: refused exactly when another call is registered under the id |
| GuestRouting.AgentServer.UnregisterExec | guest-agent/server.go:50-54 | is the return step of a registered call and keeps the table routed |
| GuestRouting.AgentServer.GetExec | guest-agent/server.go:56-61 | finds a call if and only if it is registered under the id |
| GuestRouting.AlwaysRouted | guest-agent/server.go:99-108 | over every interleaving of calls the table holds exactly the registered ones, each under its id |
| GuestRouting.RouteIsStable | guest-agent/server.go:180-216 | until a registered call returns, its id leads to it, whatever rejected duplicates do |
| GuestRouting.ReturnedIdIsFree | guest-agent/server.go:40-54 | a call that asks for an id in use is refused, and gets it once the other has returned |
| ExecRows.PersistThenReload | adapter/internal/exec/registry.go:132-158 | a finished record stored and reloaded keeps output, status, code, flags, byte count and error, is well formed with Done last, and stores to the same row again; its command comes back if and only if it was one string |
| ExecRows.CommandSurvivesIff | adapter/internal/exec/registry.go:355-360 | a command comes back from its row if and only if it was one string |
| ExecRows.JoinSplits | adapter/internal/exec/registry.go:355-360 | the words of a stored command are kept in order, one space between each two |
| ExecRows.StaleReloads | adapter/internal/exec/registry.go:54-61 | a row left running reloads as errored with -1 and `adapter_restarted`; any other row is left alone |
| ExecRows.StoredFields | adapter/internal/exec/registry.go:132-158 | what each column of the final row reloads as, for any record, and the words its status column uses |
| RegistryStore.InsertKeepsIndex | adapter/internal/exec/registry.go:77-88 | inserting a new id keeps the sandbox index the exact inverse of the records |
| RegistryStore.RemoveKeepsIndexIff | adapter/internal/exec/registry.go:224-236 | removing a record keeps it, with no empty set left, if and only if the record in memory is the sandbox's own |
| RegistryStore.DropKeepsIndex | adapter/internal/exec/registry.go:213-222 | so does dropping a sandbox, which removes exactly its records |
| RegistryStore.RollbackRestores | adapter/internal/exec/registry.go:74-108 | an insertion rolled back leaves both maps as if it never ran |
| Registries.Registry.Register | adapter/internal/exec/registry.go:77-110 | succeeds exactly when the id is new in memory and table, the sandbox exists and the INSERT works; else memory and table are untouched |
| Registries.InsertedRowReloads | adapter/internal/exec/registry.go:95-103 | a new record's row is a running one with nothing captured, and reloads as the same exec: sandbox, cwd, environment, cap, start time, and the command if it was one string |
| Registries.RegisterThenForget | adapter/internal/exec/registry.go:77-110 | registered, dropped from memory and looked up again, it is that exec |
| Registries.Registry.PersistFinal | adapter/internal/exec/registry.go:132-158 | writes the final columns of this row only, or nothing |
| Registries.Registry.Finish | adapter/internal/exec/registry.go:112-125 | the record's first end decides, and what was decided is stored |
| Registries.Registry.Get | adapter/internal/exec/registry.go:164-172 | memory first, then the row, then not found |
| Registries.Registry.List | adapter/internal/exec/registry.go:177-207 | every exec of the sandbox from memory or table exactly once, memory winning, sorted by start time |
| Registries.SortByStart | adapter/internal/exec/registry.go:203-205 | the same records, each once, in order of start time |
| Registries.Registry.DeleteBySandbox | adapter/internal/exec/registry.go:213-222 | drops exactly the sandbox's records, keeps the index exact, and counts them |
| Registries.Registry.Reconcile | adapter/internal/exec/registry.go:54-72 | every running row becomes errored with -1 and adapter_restarted, and no other row changes |
| Drains.DrainIntoRecord | adapter/internal/api/exec.go:428-447 | the record ends as the frames say and terminal; only its row may change, and only to the final row of the record as it was at one of its ends |
| Drains.StoredRowAgrees | adapter/internal/exec/registry.go:135-154 | a row so written agrees with the record left behind in status, code, error and time, and no other column but the output's changed |
| Drains.DrainFinishes | adapter/internal/api/exec.go:428-447 | for every stream cut anywhere, exactly one Done chunk: completed with the first Done's code, or errored with -1 |
| Drains.DrainKeepsPrefixes | adapter/internal/api/exec.go:432-438 | output is a prefix of each stream, min(T, cap) bytes in all, truncated if and only if T exceeds the cap |
| Drains.AgentReplyIsFinal | adapter/internal/api/exec.go:189-206 | a reply that read the status first and the output later is final once its status is finished |
| Drains.ReplyHoldsPrefixes | adapter/internal/api/exec.go:197-204 | whatever the frames and wherever its two reads fall, a reply holds under each name a prefix of what the agent sent on that stream |
| Drains.FinishedReplySays | adapter/internal/api/exec.go:189-206 | a finished reply has min(T, cap) bytes, is truncated if and only if T exceeds the cap, and carries the status and code of the first Done, or errored with -1 |
| Drains.FinishedRepliesFinalIff | adapter/internal/api/exec.go:189-206 | for any history, every reply that says finished is final if and only if nothing was appended after the first finish or the output was truncated before it |
| Drains.DataAfterDoneIsMissed | adapter/internal/exec/record.go:177-188 | a stream with data after Done for which such a reply is not final |
| Drains.DoneIsLast | guest-agent/server.go:154-177 | for what the agent sends, cut anywhere, and for any stream whose Done comes last, Done is the record's last chunk |
| RegistryRuns.NextKeepsInv | adapter/internal/exec/registry.go:74-158 | every step keeps: one writer per row, terminal rows agree with it, running rows are explained |
| RegistryRuns.RunningRowsAreExplained | adapter/internal/exec/registry.go:127-158 | while serving, a running row has a live owner with work to do or a failed final write behind it |
| RegistryRuns.LostMeansFailedWrite | adapter/internal/exec/registry.go:127-158 | what counts as a failed final write is one, in the run, since the last reconciliation |
| RegistryRuns.ExecRunsThrough | adapter/internal/exec/registry.go:77-158 | without faults an exec with a new id of a known sandbox is registered and leaves its record's final row, and no other row changed |
| RegistryRuns.RowsHaveTheirSandbox | adapter/internal/db/schema.sql:33 | over every run each row belongs to a known sandbox |
| RegistryRuns.AtMostOneWriter | adapter/internal/exec/registry.go:77-110 | no two live records can write the same row |
| RegistryRuns.ReconcileLeavesNoneRunning | adapter/main.go:65-68 | serving starts with no row left running: those that were are errored with -1 and `adapter_restarted`, and no other has changed |
| RegistryRuns.TerminalRowsAreStable | adapter/internal/exec/registry.go:135-154 | over every run, crashes included, a row only goes from running to terminal and then keeps status, code and error |
| RegistryRuns.IndexExactIff | adapter/internal/exec/registry.go:224-236 | the index is exact all through a run, whatever interleaves, if and only if no rollback meets its id in memory under another sandbox |
| RegistryRuns.IndexStaysExact | adapter/internal/exec/registry.go:77-110 | so it is in every run whose ids in flight are distinct |
| RegistryRuns.SameIdInFlightBreaksIndex | adapter/internal/exec/registry.go:224-236 | a run with one id in flight twice that leaves a dangling index entry |
| EndToEnd.ChildToRecord | guest-agent/server.go:113-177 | for every child, interleaving, window and cap on an unbroken stream: status, exit code, prefixes of both outputs totalling min(all, cap), Done last |
| EndToEnd.BrokenToRecord | adapter/internal/api/exec.go:444-446 | on a broken stream the record still holds prefixes, and is errored unless the whole stream had come through |
| EndToEnd.ChildToClient | adapter/internal/api/exec.go:353-420 | while memory keeps the record, for every finished run, its agent stream broken or not: the client is in step if and only if no connection made it forget its position; if none did, unbroken ones bring it the whole log if and only if there are enough of them; and the whole log is prefixes of the child's outputs and the record's exit code, on an unbroken agent stream all output up to the cap and the child's code |
| EndToEnd.ChildToReloadedClient | adapter/internal/exec/registry.go:160-172 | when memory loses the record between two connections, for every finished run, its agent stream broken or not: if no connection made the client forget its position, it is told everything if and only if its position lies within the reloaded log and the chunks it had carry the bytes of those it skips |
| SandboxManager.Manager.Create | adapter/internal/sandbox/manager.go:178-271 | succeeds exactly without faults on a free id; a failure names its stage and leaves no row, agent or connection, and the pod only if its deletion failed |
| SandboxManager.Manager.Delete | adapter/internal/sandbox/manager.go:297-325 | ends the row, drops and closes the agent, removes the pod if that works; idempotent |
| SandboxManager.Manager.Get | adapter/internal/sandbox/manager.go:278-290 | found exactly when there is a row that has not ended, with the cached agent |
| SandboxManager.Manager.MarkEnded | adapter/internal/sandbox/manager.go:388-395 | ends a row that is up, and touches no other |
| SandboxManager.Manager.Reconcile | adapter/internal/sandbox/manager.go:100-171 | a running row ends exactly when its pod is found missing and the update works; an agent is cached exactly for the rows whose pod answers |
| SandboxRuns.RowsOnlyEnd | adapter/internal/sandbox/manager.go:298-302 | over every run rows only go from running to ended, with the cause set once |
| SandboxRuns.EndCauseTells | adapter/internal/sandbox/manager.go:298-302 | over every run an ended row has cause `user_kill` if a deletion ended it, and `host_failed` if a restart found its pod gone |
| SandboxRuns.AgentsBelongToRunningRows | adapter/internal/sandbox/manager.go:247-249 | cached agents belong to running rows, and no other connection is open |
| SandboxRuns.PodsBelongToRunningRows | adapter/internal/sandbox/manager.go:173-177 | each pod belongs to a running row unless its deletion failed or a crash cut an operation short |
| SandboxRuns.LeakedMeansLeftBehind | adapter/internal/sandbox/manager.go:306-309 | a pod counts as left behind only by a failed deletion or a crash within a creation or deletion of its sandbox |
| SandboxRuns.LeakedPodStays | adapter/internal/sandbox/manager.go:306-309 | such a pod stays and its row stays ended over every later run in which the cluster does not itself lose it |

## Left out

- ExecRecords.ExecRecord.Append: sequence numbers are unbounded naturals; a wrap at 2^64 takes 2^64 empty appends, and `ExecLog.SeqNumbersFit` rules it out for drained records.
- SseSession.GetOutputStream: what the producer sends meanwhile is given as the sends to this channel; which of them a running record makes is the transition system of `fanout.dfy`, and the write errors that end the loop early are the cuts of the client's side.
- `Wait` as a loop: it has no liveness guarantee, because a Done dropped on a full buffer is never sent again; only what a reader of Done may conclude is stated.
- Database statements that take effect although the client sees an error, and pods that are created although the cluster reports a failure.
- Read errors of a pipe other than its end, and grandchildren that keep a pipe open after the child exits.
- UTF-8 decoding and the `retry` field of event streams (the wire is ASCII and has no such field), and JSON beyond the two fixed bodies.
- The order that sorting gives to execs with equal start times.
- HTTP routing, request decoding, error bodies, middleware, logging, flags and the handler's timeout arithmetic.
- Wall-clock time: timestamps are opaque numbers; the polling in `waitForPodReady`, `pingAgent` and `writeInitialStdin` is one outcome each.
- `FileRead`, `FileWrite`, `Watch`, stdin payloads, `parseSignal` and random ids.
- Marshalling of environments and tags, which cannot fail for string maps.
- Sandbox operations running concurrently with each other: each is one step, apart from crashes inside `Create` and `Delete`.
- Pause, idle timeout, deadline expiry and callbacks, which the design describes and the code does not have.
