# Verified model of the guest supervisor, the cloud proof and the publisher

This project models five parts of the repository in Dafny 4.11 and proves what they are for.

1. **Workload output.** Two pipes are read into two 4096-byte buffers, a round-robin pump moves
   quanta into one console queue, and one nonblocking write per tick drains it. `ConsoleQueue.dfy`
   and `OutputPump.dfy` hold the arrays and their step functions, `MainOutput.dfy` the theorems about
   runs: conservation, drain progress, fairness, and what it takes to fail.
2. **The lifecycle session of PID 1.** `FrameReader.dfy` is the incremental length-prefixed reader,
   `Lifecycle.dfy` the session against an arbitrary host, `LifecycleMoves.dfy` the shapes of its steps,
   `LifecycleProofs.dfy` and `LifecycleAuthority.dfy` the theorems over all runs,
   `LifecycleAdmission.dfy` exactly which frames are taken and what each of them does,
   `LifecycleSession.dfy` the mutable session. `RemoteExec.dfy` is the one exec job with the accounting
   and the conservation of its output, `RemoteExecProgress.dfy` what its turns get done,
   `ExecSession.dfy` the job and the session together, `Teardown.dfy` the bounded teardown and the gate
   in front of the terminal state, `TeardownRun.dfy` what it is to session and job,
   `TeardownVerdict.dfy` exactly when it succeeds, `Terminal.dfy` what the gate lets the session do.
3. **Freestanding parsers, hash and filter.** `JsonText.dfy`, `Decimal.dfy`, `Parser.dfy` and
   `Network.dfy` give grammars with their one printer and the cursor that reads them, and
   `KnownTexts.dfy` spells those texts out; `Sha256.dfy` is the streaming hash and HMAC,
   `Sha256Standard.dfy` relates words, constants, functions, masks and one whole digest to FIPS 180-4
   and RFC 2104; `Seccomp.dfy` runs the BPF table on an interpreter.
4. **Crash-safe cloud ownership.** `Ownership.dfy` has the proof and cleanup programs as steps over a
   cloud and two durable files, with a crash allowed between any two of them. `OwnershipProofs.dfy`
   proves safety, `OwnershipOrder.dfy` the order in which resources come and go, `OwnershipProgress.dfy`
   when a cleanup can finish and when it never can, and `OwnershipProgram.dfy` writes the programs with
   their loops and shows that each execution is a run.
5. **Immutable publication.** `Publication.dfy` interleaves any number of publishers of one tag,
   `PublicationAlone.dfy` says where an undisturbed one succeeds, `PublicationProgram.dfy` is one of
   them with its loops.

Each part has a value-level specification (a view and step functions), theorems about it, and, where
the source updates fields or buffers, a class whose methods equate the new view with a step of the
old one. `Bytes.dfy` holds what they share.

## How the world is modelled

Everything outside the programs is an argument that may take any value. System calls and library
callbacks are scripts of answers, the clock is a number that each turn is given, the host sends
arbitrary messages. A message is decoded and carries one bit that says whether its MAC verifies; the
digest of an acknowledgement is the acknowledgement itself. Other users of the cloud and of the
release may act between any two steps.

Two assumptions about others are built in. Nobody else puts the operation's ownership marks on a
resource, and an id is not used twice (`MayTouch` and `MayAppear` in `Ownership.dfy`). The release
server refuses a name that it has, and deletes and replaces nothing (`Grows` in `Publication.dfy`).

## What the code does where one might expect more

* `lifecycle_pump` reports success after a connection loss even when the boundary could not be
  acknowledged and the session was poisoned (`guest/stage1/init.c:2561-2565`, `3247`). The epoch then
  no longer counts the boundaries, and a stale acknowledgement can open a connection
  (`PoisonedSessionAcceptsStaleAuthority` is a run in which it does). Both happen exactly when the
  boundary found no identifier slot or no fresh identifier: `BoundaryKeepsCountExactly` says so of the
  count, `ReconnectAuthorityIff` of the authority and of the identifier beside it.
* Two successful publishers agree because the local directory must hold exactly three files. Equal
  numbers of assets is the exact condition (`AgreementIff`).
* The release that is read after the fifth repair is not looked at, so that a publisher can fail
  although its last upload completed the release (`scripts/publish_development_package.py:305-314`).
  `LastUploadComesTooLate` has such a run for every directory that passes the local check, and
  `RereadSucceedsIff` says that it takes the last attempt.
* SHA-256 keeps the length in 64 bits; the length in the padding is exact if and only if the message
  has less than 2^64 bits.
* A create whose outcome stays unknown blocks certification for ever, also when its resource is
  known to be gone or was never asked for: cleanup only clears the in-flight mark when it finds the
  resource. `FinishableIff` is the exact condition, `AnnouncedCreateBlocks` a run to such a state.

## Model

| member | source | states |
|---|---|---|
| `MainOutputs.OutputIsConserved` | guest/stage1/init.c:5303-5334 | After any run of services and notes, with any sink, sources and schedule, the console shows an order-preserving merge of stream 0, stream 1 and the accepted diagnostics, and for each of them written ++ queued ++ still in the stream buffer is exactly what was read |
| `MainOutputs.RunConserves` | guest/stage1/main_output_pump.h:39-203 | The account of every byte that was read survives every run, from any state in which it holds |
| `MainOutputs.WriteConserves` | guest/stage1/main_output_pump.h:153-170 | What leaves a stream buffer is what enters the queue, in order, whether the sink takes a chunk, asks for patience or fails |
| `MainOutputs.ReadConserves` | guest/stage1/main_output_pump.h:171-201 | The buffers grow by exactly the accepted answers of the sources; a refused or transient answer adds nothing |
| `MainOutputs.NoteConserves` | guest/stage1/main_output_pump.h:61-71 | A diagnostic is queued whole and counted once, or not at all |
| `MainOutputs.AttributedMerges` | guest/stage1/main_output_pump.h:39-71 | Any tagged byte row is an interleaving of its three producers, each complete and in its own order |
| `MainOutputs.DrainStep` | guest/stage1/main_output_pump.h:73-203 | After both streams ended, a service whose sink takes a byte strictly decreases twice the buffered plus the queued bytes |
| `MainOutputs.DrainBound` | guest/stage1/main_output_pump.h:73-203 | A progressing run longer than that weight has drained both machines |
| `MainOutputs.DrainedIsStable` | guest/stage1/main_output_pump.h:205-218 | A drained service changes nothing any more, whatever the world answers |
| `MainOutputs.DrainedRunDelivers` | guest/stage1/init.c:5325-5334 | A run that drains has shown all that it read and noted, and nothing else, and no later service changes that |
| `MainOutputs.WriteIsFair` | guest/stage1/main_output_pump.h:153-170 | A stream with pending bytes hands over its chunk within two ticks, however busy its peer is, when the queue has room |
| `MainOutputs.ReadIsFair` | guest/stage1/main_output_pump.h:171-201 | A readable stream whose source has bytes is read within two ticks, whatever its peer does |
| `MainOutputs.EndIsFair` | guest/stage1/main_output_pump.h:171-201 | A pipe that has ended is known to have ended within two ticks, whatever its peer does |
| `MainOutputs.BenignRunIsHealthy` | guest/stage1/init.c:5303-5334 | Over every run the output fails only where the console or a pipe answers with an error or with more than it was asked for, or a diagnostic is too long for the queue: among other answers it stays usable |
| `MainOutputs.BrokenAnswersFail` | guest/stage1/main_output_pump.h:73-93 | A bad answer of the console, or of the pipe whose turn it is, is a failure |
| `MainOutputs.NoteIsTakenIff` | guest/stage1/main_output_pump.h:61-71 | A diagnostic is queued and counted exactly when the 16384 bytes have room for all of it, and otherwise the console fails and keeps what it has |
| `MainOutputs.ServiceShowsWhatWaited` | guest/stage1/init.c:5325-5334 | A service first shows as many of the waiting bytes as the console takes, and only then moves output up |
| `ConsoleQueues.ConsoleQueue.Compact` | guest/stage1/main_output_pump.h:39-59 | The overlapping left-to-right copy keeps the waiting bytes and moves them to the front |
| `ConsoleQueues.ConsoleQueue.EnqueueData` | guest/stage1/main_output_pump.h:39-59 | The array holds the old bytes followed by the whole chunk, or is unchanged: backpressure does not poison, a null source with a size does |
| `ConsoleQueues.ConsoleQueue.EnqueueDiagnostic` | guest/stage1/main_output_pump.h:61-71 | A diagnostic that does not fit makes the queue fail for good |
| `ConsoleQueues.ConsoleQueue.FlushTick` | guest/stage1/main_output_pump.h:73-93 | One write of at most one quantum removes exactly the bytes that the sink took; a transient answer removes none, any other bad answer is sticky |
| `OutputPumps.OutputStream.Compact` | guest/stage1/main_output_pump.h:177-182 | In-place compaction of a stream buffer keeps its pending bytes |
| `OutputPumps.OutputPump.WriteOnce` | guest/stage1/main_output_pump.h:153-170 | The round-robin loop over the arrays is the sink side of a tick |
| `OutputPumps.OutputPump.ReadOnce` | guest/stage1/main_output_pump.h:171-201 | The round-robin loop over the sources is the source side of a tick: one transient source does not keep its peer from being asked |
| `OutputPumps.OutputPump.Tick` | guest/stage1/main_output_pump.h:134-203 | One tick over the two arrays is one step of the pump and the queue together, including the sticky failures and the bounds checks |
| `OutputPumps.OutputPump.IsDrained` | guest/stage1/main_output_pump.h:205-213 | True exactly when both streams ended, are empty and in bounds, and nothing failed |
| `OutputPumps.Sink` | guest/stage1/init.c:5313-5322 | The production sink: the whole chunk is queued, or -EAGAIN leaves the queue alone, or -EIO reports that it failed |
| `MainOutputs.MainOutput.Service` | guest/stage1/init.c:5325-5334 | One flush and one tick, and failure of the pump when the queue has failed |
| `FrameReaders.ReaderRefinesParse` | guest/stage1/init.c:2604-2669 | For every stream and every way read(2) splits, delays or interrupts it: frames delivered and bytes held are the length-prefixed parse of what was read, the deadline runs exactly while bytes are held, and the run is rejected if and only if some turn met a failed clock, the deadline or an answer that no live channel gives, or what was read, the last answer included, is malformed |
| `FrameReaders.ChunkingDoesNotMatter` | guest/stage1/init.c:2604-2669 | Two runs without such harm that read the same bytes agree on acceptance, on every frame and, if accepted, on every held byte |
| `FrameReaders.RejectionDoesNotDependOnChunking` | guest/stage1/init.c:2641-2651 | Of two runs without harm over one source, if one is rejected, the other is rejected at the very same byte with the same frames, or has not come that far |
| `FrameReaders.CallsAreTurns` | guest/stage1/init.c:2604-2669 | Any sequence of calls is one such run over the polls that the calls take, with the same reader, the same frames and the same rejection |
| `FrameReaders.ParseResumes` | guest/stage1/init.c:2604-2669 | Parsing a stream is parsing its first part, and then what that left followed by the rest |
| `FrameReaders.FeedMeaning` | guest/stage1/init.c:2626-2668 | Bytes fed to an unfinished frame leave it unfinished or finish it, as the parse of all its bytes says, and are refused only when that parse is malformed or the clock behind the first byte fails |
| `FrameReaders.InvalidLengthIsRejected` | guest/stage1/init.c:2641-2651 | A length of zero or above 65532 is never read past, however it is split |
| `FrameReaders.OneFrame` | guest/stage1/init.c:2641-2651 | The layout of a stream in numbers: four octets, most significant first, spell a length from 1 to 65532, that many octets are the frame, and any other length is malformed |
| `FrameReaders.FrameTakesFiveSeconds` | guest/stage1/init.c:2604-2668 | In every run, with the time behind the first byte of a frame kept by an observer: bytes are taken exactly within five seconds of it and within the caller's slice, and behind the five seconds the run is rejected |
| `FrameReaders.DiscardAlwaysPasses` | guest/stage1/init.c:3182-3189 | What a peer boundary throws away always passes the three-way check of the boundary acknowledgement |
| `FrameReaders.BufferedInjective` | guest/stage1/init.c:2604-2669 | The held bytes determine which of the two buffers they are in and what length is expected |
| `FrameReaders.FrameReader.ReadControlFrame` | guest/stage1/init.c:2604-2669 | The loop over the two fixed buffers refines the reader, and reports what it held when its last turn began |
| `FrameReaders.FrameReader.Feed` | guest/stage1/init.c:2626-2668 | Counting bytes into the header or the payload buffer in place is one step of the reader |
| `LifecycleProofs.EpochDiscipline` | guest/stage1/init.c:2541-2565 | Over every reconnect history nonces and boundary ids never repeat, there are at most sixteen nonces and at most one for each epoch, and the epoch is one plus the number of boundaries while the session is not poisoned |
| `LifecycleProofs.BoundaryKeepsCountExactly` | guest/stage1/init.c:2541-2565 | A peer boundary keeps that equation if and only if an identifier slot and a fresh identifier are left; otherwise the session is poisoned although the pump reports success |
| `LifecycleProofs.ReconnectAuthority` | guest/stage1/init.c:2742-2853 | A reconnect spends one acknowledgement that was really issued and that no other reconnect spends, and while not poisoned it names the epoch that it opens and carries that acknowledgement's own boundary identifier |
| `LifecycleAuthority.ReconnectAuthorityIff` | guest/stage1/init.c:2541-2565 | For every reconnect behind a peer boundary, poisoned or not: the spent acknowledgement is that of the epoch it opens if and only if that boundary found an identifier slot and a fresh identifier, and the identifier it carries is that acknowledgement's own if and only if, besides, the failed drawing left it in place |
| `LifecycleAuthority.EveryReconnectHasItsBoundary` | guest/stage1/init.c:2742-2853 | Every reconnect that is ever admitted has such a boundary behind it, the one that opened its epoch |
| `LifecycleProofs.PoisonedSessionAcceptsStaleAuthority` | guest/stage1/init.c:2541-2565 | Without the poison condition this is false: a concrete run in which a stale acknowledgement opens an epoch that it does not name |
| `LifecycleProofs.StopOnce` | guest/stage1/init.c:2864-2891 | STOP is delivered at most once, every accepted STOP or retry has the one committed id |
| `LifecycleProofs.StepsOnlyForward` | guest/stage1/init.c:2864-2891 | No step takes back a state, a stop id, a frozen exit, a result, a poisoning, or anything accepted or sent |
| `LifecycleProofs.LateStopIsAbsorbedOnce` | guest/stage1/init.c:2864-2891 | After a frozen natural exit at most one late STOP is absorbed, in the epoch of the connection open at the exit, and it commits nothing |
| `LifecycleProofs.OneTerminalCause` | guest/stage1/init.c:3101-3180 | TERMINAL, terminal snapshots and terminal boundaries all report the one recorded cause and stop id |
| `LifecycleProofs.RequestIdsUsedOnce` | guest/stage1/init.c:2678-2693 | Request ids are used once, EXEC ids grow, and the ledger holds one id for each nonce and at most one more, so that seventeen slots suffice for sixteen connections |
| `LifecycleProofs.HostFramesInOrder` | guest/stage1/init.c:2742-2853 | Accepted host frames have strictly growing numbers, HELLO is the first as 1, KEY_ACK the second as 2, and neither comes again |
| `LifecycleProofs.GuestFramesInOrder` | guest/stage1/init.c:3101-3226 | Every attempt to send has a fresh larger number, even a failed one, and a boundary quotes a number above all earlier ones |
| `LifecycleProofs.Reachable` | guest/stage1/init.c:2541-3274 | The whole invariant behind these theorems holds after every run against an arbitrary host |
| `LifecycleAdmission.StopIsTaken` | guest/stage1/init.c:2864-2891 | In every reachable world, for every STOP that arrives: it is admitted as the first one if and only if it is signed for this connection, epoch and run, newer than all before, a SIGTERM under a valid id that the record of accepted frames has not used up, and the session is READY and not frozen; then the session is Stopping under that id with one delivery. It is a retry if and only if it repeats the committed id while Stopping, and changes no part of the life cycle; it is the late one if and only if that is still allowed and its id unused. Any other STOP poisons the session and changes nothing else |
| `LifecycleAdmission.ExecIsTaken` | guest/stage1/init.c:2775-2862 | An EXEC is admitted if and only if the session is READY without a job, the envelope is that of this connection, the arguments and the time are within their limits and the record has not used the id up; then the job is due and its time runs, and otherwise the session is poisoned |
| `LifecycleAdmission.ReconnectIsTaken` | guest/stage1/init.c:2742-2853 | A RECONNECT is admitted if and only if it carries the unspent acknowledgement and the identifier beside it, a new nonce while fewer than sixteen are used, and an unused id; then both are spent and one snapshot goes out that tells state, stop id and cause, and otherwise the session is poisoned |
| `LifecycleAdmission.HelloIsTaken` | guest/stage1/init.c:2700-2740 | The first frame of a run is admitted if and only if it is a HELLO for this run with number and epoch one, 64 lower-case hexadecimal digits and a valid id |
| `LifecycleAdmission.KeyAckIsTaken` | guest/stage1/init.c:3323-3350 | The frame behind the bootstrap is admitted if and only if it is the KEY_ACK that answers it, under number two |
| `LifecycleAdmission.ExchangeEnds` | guest/stage1/init.c:3323-3350 | Five seconds after the bootstrap the exchange fails without reading, and so it does when the peer leaves or a frame is broken; nothing else ends it |
| `LifecycleAdmission.OpeningWaits` | guest/stage1/init.c:3276-3321 | Before HELLO only a broken frame, or a connection that breaks off, ends the session |
| `LifecycleAdmission.AnyOtherFrameFails` | guest/stage1/init.c:3241-3274 | A frame out of place, a broken one, or one behind a send that the carrier refused poisons the session and changes nothing else |
| `LifecycleAdmission.WaitingTurn` | guest/stage1/init.c:3241-3274 | A turn without a frame changes nothing but the reader, unless a send was refused and its time is up |
| `LifecycleAdmission.BoundaryIsTold` | guest/stage1/init.c:3182-3226 | A lost peer is told of in an acknowledgement that names the new epoch, the bytes thrown away, both frame numbers, the state, stop id and cause, and the first identifier drawn that was not used, if and only if a slot and such an identifier are left; without them, or if the console does not take the line, the session is poisoned |
| `LifecycleAdmission.SeenIffUsed` | guest/stage1/init.c:2678-2693 | The ledger refuses exactly the ids that the record of accepted frames has used up: those of openings, STOPs and EXECs, and all below an EXEC |
| `LifecycleAdmission.SupervisorMovesOn` | guest/stage1/init.c:5976-6207 | The bootstrap answers the HELLO under a number of its own; the session becomes READY with a notice that answers the KEY_ACK; an exit is recorded, and frozen with one late STOP allowed to the connection that is open unless a STOP came first; the end takes over the record and is told to whoever is there |
| `LifecycleMoves.StepMoves` | guest/stage1/init.c:3241-3274 | Every step of the session is one of four kinds of move: it sends, admits, loses a connection, or is quiet, each with its exact effect on the ledgers |
| `LifecycleMoves.BoundarySends` | guest/stage1/init.c:3182-3226 | A boundary that can be acknowledged gets a fresh identifier, one number and one frame; otherwise the digest and the identifiers stay as they were |
| `LifecycleSessions.LifecycleSession.NonceSeen` | guest/stage1/init.c:2671-2676 | The scan finds a nonce exactly when it was used |
| `LifecycleSessions.LifecycleSession.HasSeen` | guest/stage1/init.c:2678-2684 | The scan finds a request id exactly when it, or a larger EXEC id, was used |
| `LifecycleSessions.LifecycleSession.RememberNonceRequest` | guest/stage1/init.c:2686-2693 | Both ledgers grow together, or neither does |
| `LifecycleSessions.LifecycleSession.ParseHello` | guest/stage1/init.c:2700-2740 | HELLO is admitted exactly as the specification says, with the fields it sets and no others |
| `LifecycleSessions.LifecycleSession.ParseKeyAck` | guest/stage1/init.c:2742-2853 | KEY_ACK is admitted once, for this bootstrap and this nonce |
| `LifecycleSessions.LifecycleSession.ParseReconnect` | guest/stage1/init.c:2742-2853 | A reconnect is admitted exactly with the id, the digest and the epoch of the unspent acknowledgement, which it spends |
| `LifecycleSessions.LifecycleSession.TakeStop` | guest/stage1/init.c:2864-2891 | The decision table of STOP: fresh, retry, late, or refused |
| `LifecycleSessions.LifecycleSession.ParseExec` | guest/stage1/init.c:2775-2862 | EXEC is admitted exactly with a larger id while READY, without a STOP and without a job, with one to 64 arguments of which the first is not empty, a spelling of at most 8192 bytes and a valid time, which runs from now |
| `LifecycleSessions.LifecycleSession.CurrentSnapshot` | guest/stage1/init.c:3228-3234 | The snapshot that matches the state is attempted once |
| `LifecycleSessions.LifecycleSession.SendBoundaryAck` | guest/stage1/init.c:3182-3226 | The in-place version agrees with the specification on the number, the identifier and the digest |
| `LifecycleSessions.LifecycleSession.ConnectionLost` | guest/stage1/init.c:2541-2565 | Everything connection-local is cleared, and the epoch advances only behind an admitted peer after KEY_ACK |
| `LifecycleSessions.LifecycleSession.PumpOnce` | guest/stage1/init.c:3241-3274 | One frame of the pump is one step of the session |
| `LifecycleSessions.LifecycleSession.LifecyclePump` | guest/stage1/init.c:3241-3274 | One call is a run of at most 64 steps, it stops at the first failure, and asks for STOP to be dispatched exactly when one of its steps accepted one |
| `LifecycleSessions.LifecycleSession.Prepare` | guest/stage1/init.c:3276-3321 | The first connection: one HELLO, or a session that stays poisoned |
| `LifecycleSessions.LifecycleSession.Authenticate` | guest/stage1/init.c:3323-3350 | One turn of the exchange: nothing is read once five seconds have passed since the bootstrap, one KEY_ACK is admitted, and any other frame or a hang-up fails the session |
| `LifecycleSessions.LifecycleSession.MainExits` | guest/stage1/init.c:6082-6163 | A natural exit freezes the result and allows one late STOP from the connection open now |
| `LifecycleSessions.LifecycleSession.Finish` | guest/stage1/init.c:6203-6207 | The terminal state takes over the recorded cause, and TERMINAL is attempted while a peer is there |
| `RemoteExecs.ExecAccounting` | guest/stage1/init.c:5148-5188 | In every run each output frame's offset and each exit frame's counts are the totals of the frames before it, a job relays at most 65536 bytes, nothing follows its exit and it has only one |
| `RemoteExecs.ExecOutputIsConserved` | guest/stage1/init.c:5557-5571 | In every run and for every job, the frames of each stream carry exactly the bytes that its reads returned while there was a peer, in their order, if both streams together stay within 65536 bytes; beyond that they carry the first bytes of each stream, 65536 in all |
| `RemoteExecProgress.FirstStreamIsRelayed` | guest/stage1/init.c:5557-5571 | In every reachable state, a turn that finds the wire slot free, a peer, and a job below the limit puts what its standard output returned into one frame, behind the total so far and cut to 1024 bytes and to the limit |
| `RemoteExecProgress.SecondStreamIsRelayed` | guest/stage1/init.c:5557-5571 | Standard error is relayed in the same way when standard output has nothing to say |
| `RemoteExecProgress.OverrunEnds` | guest/stage1/init.c:5565-5567 | The first byte above the limit kills the job for that reason, unless there was another before, and closes both streams |
| `RemoteExecProgress.EndedJobReports` | guest/stage1/init.c:5572-5579 | A reaped job whose streams have ended and whose processes are gone sends its exit in that turn, with the totals of both streams and the first cause given |
| `RemoteExecProgress.DeadlineKills` | guest/stage1/init.c:5538-5550 | A deadline or a reaped child kills the job under the first cause given, and a confirmed isolation ends its start |
| `RemoteExecProgress.PendingStarts` | guest/stage1/init.c:5509-5512 | A pending job is started by the next turn while the session is READY |
| `RemoteExecProgress.StoppedJobReports` | guest/stage1/init.c:5509-5518 | A pending job of a session that is not READY reports instead that it was cancelled, with no output |
| `RemoteExecProgress.ReportedJobLeaves` | guest/stage1/init.c:5524-5537 | When its exit is written the job makes room, and the next EXEC can be admitted |
| `RemoteExecProgress.LostPeerKills` | guest/stage1/init.c:5519-5523 | A running job that loses its peer is killed, and the frame in the slot goes with the peer |
| `RemoteExecProgress.BrokenTurnsFail` | guest/stage1/init.c:5524-5580 | A turn fails when the wire breaks, when the error pipe does, and when a killed job has outlived its five seconds of cleanup |
| `RemoteExecs.OnlyTheEnvironmentFails` | guest/stage1/init.c:5507-5582 | In no reachable state does a turn fail for a reason of its own: the wire slot is empty whenever a frame is queued, and a cancelled job may always report |
| `RemoteExecs.RunKeeps` | guest/stage1/init.c:5480-5582 | The invariant of the job and its frames survives disconnects, failures, timeouts and cancellations in any order |
| `RemoteExecs.CancelKeeps` | guest/stage1/init.c:5480-5498 | Cancelling sends nothing, keeps the first reason and never restarts a job |
| `RemoteExecs.RemoteExecJob.Cancel` | guest/stage1/init.c:5480-5498 | The in-place version, with each of its three cases |
| `RemoteExecs.RemoteExecJob.Start` | guest/stage1/init.c:5444-5478 | A started job has no bytes, no reason and two open pipes; each failure leaves what had been reached |
| `RemoteExecs.RemoteExecJob.QueueOutput` | guest/stage1/init.c:5148-5161 | The frame carries the old total of its stream, which then grows by the chunk |
| `RemoteExecs.RemoteExecJob.QueueExit` | guest/stage1/init.c:5163-5188 | An exit frame carries both totals; a cancelled job reports only without output |
| `RemoteExecs.RemoteExecJob.PumpRemoteExec` | guest/stage1/init.c:5507-5582 | One call over the fields is one turn of the job |
| `ExecSessions.OneExitForEachExec` | guest/stage1/init.c:5122-5188 | In every joint run of the session and the job, also when one of them fails: each exec frame answers one admitted EXEC under a guest number of its own that grows along the record, its offset or counts are the totals of that request, and nothing that answers an EXEC id follows the exit that answers it |
| `Teardowns.TerminalImpliesDelivery` | guest/stage1/init.c:5584-5697 | After any run and any teardown that succeeds, with whatever lines the session puts on the console in between, an empty console behind the supervisor's markers means that both pipes had ended, no child and no job was left, and every byte read from a pipe and every accepted note was written, in order, and nothing else |
| `TeardownVerdicts.VerdictIff` | guest/stage1/init.c:5584-5697 | A teardown cleans up if and only if the clock, the kill and the last calls do not fail, the job could be stopped, both loops end well and the first without the job, and the last wait finds drained output, no child and no job; then the verdict is two if the session has failed and one otherwise, and in every other case it is zero |
| `TeardownVerdicts.LoopSucceedsIff` | guest/stage1/init.c:5608-5651 | A loop succeeds if and only if every turn before some turn went well and left more to do, and that turn found the deadline passed or the machine at rest; a turn goes well when its clocks, wait, output service, job and poll do |
| `TeardownVerdicts.TeardownCanSucceed` | guest/stage1/init.c:5584-5697 | From every healthy machine whose pipes have ended and whose job is gone, a teardown can succeed: enough turns of a sink that takes what it is offered bring it to rest |
| `TeardownVerdicts.HostIsHeard` | guest/stage1/init.c:5635-5646 | During the first loop the host is heard from READY on, unless a natural exit is frozen or the session has failed, and an EXEC it gets admitted makes the job pending |
| `TeardownRuns.TeardownIsAJointRun` | guest/stage1/init.c:5596-5651 | To the session and the exec job a whole teardown is one more stretch of their joint run, so that what holds over all joint runs holds of it |
| `TeardownRuns.TeardownKeepsResult` | guest/stage1/init.c:5584-5697 | No pumping during the teardown changes the record of how the main workload ended |
| `Teardowns.Supervisor.TerminateAndReap` | guest/stage1/init.c:5584-5697 | Both bounded loops with their reaping, their services, the exec job under the session's numbers and the session's pump, the kill between them and the verdict 0, 1 or 2 are the specified teardown |
| `Teardowns.Supervisor.Hear` | guest/stage1/init.c:5635-5646 | The session is pumped once a turn if it is due, READY, not frozen and has not failed; an EXEC that it admits is the job's, and its lines are diagnostics |
| `Teardowns.Supervisor.PumpJob` | guest/stage1/init.c:5507-5582 | The job sees the session's state and connection, and each frame that it queues takes the session's next number |
| `Teardowns.Supervisor.Loop` | guest/stage1/init.c:5608-5651 | A loop ends at quiescence, at its deadline, or when one of its two clock readings or its poll fails, and remembers every failed turn; a script that ends stands for a reading at the deadline |
| `Teardowns.Supervisor.IsQuiescent` | guest/stage1/main_output_pump.h:215-218 | True exactly when the output is drained and no child and no job is left |
| `Teardowns.Supervisor.Conclude` | guest/stage1/init.c:6181-6202 | TERMINAL is reached exactly when the teardown and the root checks succeeded and the console is empty behind both markers |
| `Terminals.Terminate` | guest/stage1/init.c:6165-6212 | The session becomes terminal, and attempts its notice, exactly when the verdict of the teardown is one, the agent was verified and the console took everything behind the two markers, and then every byte read was written and no child and no job is left; otherwise the session is as the teardown has left it |
| `Teardowns.ReportedConserves` | guest/stage1/init.c:6189-6192 | Markers and flushes keep the account and read nothing |
| `JsonTexts.AcceptedExactly` | guest/stage1/init.c:1188-1220 | A text is accepted exactly when it is the canonical printed form of a storable value followed by a quote |
| `JsonTexts.ScanIsCanonical` | guest/stage1/init.c:1188-1220 | Whatever is accepted is the canonical spelling of one value, which is what the decoder stores, with the length that the scanner reported |
| `JsonTexts.OneSpelling` | guest/stage1/init.c:1346-1376 | Two accepted texts that store the same value are the same text |
| `JsonTexts.PrintedTextRoundTrips` | guest/stage1/init.c:1346-1376 | Printing a value, scanning it and storing it gives the value back |
| `KnownTexts.EscapesAre` | guest/stage1/init.c:1188-1220 | The escapes are those of section 7 of RFC 8259: seven of two characters, and four lower-case hexadecimal digits for the other control characters |
| `JsonTexts.AdvanceIsUtf8` | guest/stage1/init.c:1170-1186 | The code-point range test accepts, apart from control characters, exactly the table in section 4 of RFC 3629 |
| `JsonTexts.PrintDecodes` | guest/stage1/init.c:1346-1376 | The decoder inverts the printer on every value without NUL, well-formed or not |
| `Parsers.Parser.JsonString` | guest/stage1/init.c:1188-1220 | The cursor loop reports the span and the decoded length of the specification, or fails where it does |
| `Parsers.Parser.Utf8Advance` | guest/stage1/init.c:1170-1186 | The cursor's width test |
| `Parsers.Parser.PlainString` | guest/stage1/init.c:1242-1249 | A plain string is read exactly when its raw text stands for itself |
| `Parsers.Parser.Key` | guest/stage1/init.c:1222-1227 | A key is read exactly when its literal quoted text and a colon are next |
| `Parsers.PlainIff` | guest/stage1/init.c:1242-1249 | A plain string is its raw text in quotes, and nothing else |
| `Parsers.KeyIsLiteral` | guest/stage1/init.c:1222-1227 | Scanning a string and comparing it is the same as comparing the text |
| `Parsers.ProcessArena.DecodeProcessString` | guest/stage1/init.c:1346-1376 | The arena grows by the decoded bytes and a NUL, exactly when they decode and fit |
| `Parsers.Parser.UintValue` | guest/stage1/init.c:1251-1263 | The digit loop with its overflow test before each step reads exactly the canonical numbers below 2^64 |
| `Decimals.PrintParses` | guest/stage1/init.c:1251-1263 | Every 64-bit value is read back from its printed form, whatever follows that is no digit |
| `Decimals.ParseIsPrinted` | guest/stage1/init.c:1251-1263 | Whatever is read is the printed form of its value: leading zeros and overflow are refused |
| `Decimals.AppendU64` | guest/stage1/init.c:2899-2905 | The printed digits are appended, or nothing is when they do not fit |
| `Decimals.TwentyDigits` | guest/stage1/init.c:2899-2905 | Twenty digits of scratch space suffice for every 64-bit value |
| `Networks.NetworkIff` | guest/stage1/init.c:1526-1564 | The parser accepts exactly the printed forms of valid contracts: parser and printer are inverse, and every contract has one text |
| `KnownTexts.NetworkText` | guest/stage1/init.c:1526-1564 | The text of a contract letter by letter: seven keys in their order, the interface eth0, decimal octets with dots, hexadecimal pairs with colons, the three modes and the list of resolvers |
| `Networks.Ipv4Iff` | guest/stage1/init.c:1486-1509 | A dotted quad has one accepted text: four canonical octets |
| `Networks.MacIff` | guest/stage1/init.c:1511-1521 | A hardware address has one accepted text of seventeen characters |
| `Networks.ServersIff` | guest/stage1/init.c:1549-1560 | A resolver list is read exactly when it is the printed form of at most three addresses |
| `Networks.ParseIpv4Span` | guest/stage1/init.c:1486-1509 | The two nested loops read the four octets of the specification |
| `Networks.ParseMacSpan` | guest/stage1/init.c:1511-1521 | The pair loop fills the six octets in place |
| `Networks.GuestNetwork.Parse` | guest/stage1/init.c:1526-1564 | Reading field by field with the early exits of the source accepts what the whole-text parser accepts, and the fields then hold its contract |
| `Sha256.Context.Update` | guest/stage1/init.c:809-824 | Any bytes in any portions: the message grows by them, full blocks are compressed, the rest waits |
| `Sha256.Context.Final` | guest/stage1/init.c:826-844 | The digest is the fold of the compression function over the message padded per section 5.1.1 of FIPS 180-4 |
| `Sha256.HashParts` | guest/stage1/init.c:809-844 | However a message is split into updates, the digest is that of the whole message |
| `Sha256.PadMeetsStandard` | guest/stage1/init.c:826-837 | The padding is the message, a one bit, the fewest zeros and the 64-bit length in whole blocks; the length is exact if and only if the message has less than 2^64 bits |
| `Sha256Standard.PackIsBigEndian` | guest/stage1/init.c:779-780 | Four octets make the word that they spell, most significant first |
| `Sha256Standard.UnpackIsBigEndian` | guest/stage1/init.c:838-843 | A word is written as the four octets that spell it |
| `Sha256Standard.ConstantsMeetStandard` | guest/stage1/init.c:766-775 | Each of the 64 constants is the first 32 bits of the fraction of the cube root of its prime, by exact cubes |
| `Sha256Standard.FirstPrimes` | guest/stage1/init.c:766-775 | The table behind these constants holds exactly the primes up to 311, the numbers above one that no smaller number above one divides, in increasing order |
| `Sha256Standard.InitialMeetsStandard` | guest/stage1/init.c:801-805 | The initial value is the fractions of the square roots of the first eight primes, by exact squares |
| `Sha256Standard.Choice` | guest/stage1/init.c:790 | Where the first word has ones the choice is the second word, and elsewhere the third |
| `Sha256Standard.MajorityOfFirst` | guest/stage1/init.c:793 | Where the first word and another agree, the majority is with them |
| `Sha256Standard.ScheduleFollows` | guest/stage1/init.c:778-785 | Whatever begins with the words that the block spells and follows the recurrence is the schedule |
| `Sha256Standard.AbcIsKnown` | guest/stage1/init.c:777-844 | The digest of the message "abc" is the one that the standard gives, followed through padding, schedule and all 64 rounds |
| `Sha256Standard.HmacMeetsStandard` | guest/stage1/init.c:858-877 | The tag is that of section 2 of RFC 2104 for the two blocks that differ from the extended key in the bits of the inner and of the outer mask, bit by bit |
| `Sha256.Context.Transform` | guest/stage1/init.c:777-799 | The in-place schedule and the 64 rounds are the compression of section 6.2.2 of FIPS 180-4 |
| `Sha256.Context.Expand` | guest/stage1/init.c:778-785 | The schedule array holds the recurrence of the standard, although the sums are taken in another order |
| `Sha256.RotrIsRotateRight` | guest/stage1/init.c:755 | The two shifts rotate |
| `Sha256.HmacParts` | guest/stage1/init.c:858-877 | The tag over three parts is the HMAC of section 2 of RFC 2104 of their concatenation |
| `Seccomp.ProgramMeansPolicy` | guest/stage1/init.c:4794-4852 | For every deny list, architecture, call, argument and initial accumulator the table halts in range with the policy's verdict |
| `Seccomp.InstalledFilter` | guest/stage1/init.c:4794-4852 | The installed table in numbers: a foreign architecture or an x32 call kills the process, each listed call and a clone with any one of the seven namespace flags is refused with EPERM, clone3 with ENOSYS, and every other call is allowed |
| `Seccomp.DenialsDecide` | guest/stage1/init.c:4802-4841 | By induction on the list: the deny pairs refuse exactly the listed numbers and pass everything else on unchanged |
| `Seccomp.PrologueDecides` | guest/stage1/init.c:4796-4801 | Foreign architectures and x32 calls are killed before anything else is looked at |
| `Seccomp.EpilogueDecides` | guest/stage1/init.c:4843-4852 | clone3 is reported missing, and clone is refused exactly when a namespace flag is set |
| `Seccomp.NamespacesStayClosed` | guest/stage1/init.c:4802-4852 | The installed table allows no call that creates or enters a namespace |
| `OwnershipProofs.WriteAheadOnDisk` | scripts/run_native_kvm_openstack.py:1604-1718 | As long as nobody loses the manifest, after any run with crashes between any two steps the manifest is on disk from the first create on, it records every resource that the operation created by id or has its kind in flight, and a create is only called while it announces exactly that create |
| `OwnershipProofs.WriteAhead` | scripts/run_native_kvm_openstack.py:1604-1718 | Also when manifests get lost: whatever manifest is on disk accounts for everything that was created, and with both files absent no create was ever called |
| `OwnershipProofs.CertificateIsTrue` | scripts/run_native_kvm_openstack.py:1106-1306 | While a manifest says verified, nothing that the operation created is left, nothing of it can still appear, no create is in flight, and nothing bears its marks |
| `OwnershipProofs.CertificateIsEarned` | scripts/run_native_kvm_openstack.py:1302-1306 | Every certificate is earned by the cleanup that writes it: one program sweeps without a break, sees each of the five kinds without anything that has the operation's name or, where the listing shows them, its marks, and goes straight from there to the write; and a certificate on disk has stood there since such a write |
| `OwnershipProofs.DeletesAreOwn` | scripts/run_native_kvm_openstack.py:1144-1301 | Every id for which a delete was called belongs to a resource that the operation's own create made |
| `OwnershipProofs.DeleteIsRecorded` | scripts/run_native_kvm_openstack.py:1144-1301 | A program that is about to delete has that id in the manifest on disk, unless the manifest was lost, and it is on disk if none ever was |
| `OwnershipProofs.DeleteFollowsMatchingLookup` | scripts/run_native_kvm_openstack.py:1144-1301 | A delete is only called behind a lookup of the recorded id that reported the operation's name and marks, for a server its project, for a port no device but the recorded server, for a group no port, and for a volume no attachment |
| `OwnershipProofs.ForeignIsUntouched` | scripts/run_native_kvm_openstack.py:1106-1306 | No step of either program changes what others have |
| `OwnershipOrder.DeletesInOrder` | scripts/run_native_kvm_openstack.py:1142-1300 | Over every run, at each lookup, delete and wait: a volume or a port has its turn when the recorded server is gone, the group when server and port are gone, and the keypair when all four others are |
| `OwnershipOrder.CreatesInOrder` | scripts/run_native_kvm_openstack.py:1604-1718 | Over every run a port is created when the group is recorded, and the server when keypair, group, port and volume are |
| `OwnershipOrder.CleanupStops` | scripts/run_native_kvm_openstack.py:1033-1104 | A cleanup stops in front of a resource that has the operation's name without its marks or beside the recorded one, and at a deletion that failed; a deletion that goes on is waited for |
| `OwnershipProofs.RunKeeps` | scripts/run_native_kvm_openstack.py:1106-1306 | The invariant behind these theorems survives every interleaving of programs, crashes, lost manifests and other users |
| `OwnershipProgress.CleanupCanFinish` | scripts/run_native_kvm_openstack.py:1106-1306 | From wherever earlier runs were interrupted, a cleanup can end with a certificate, as long as the manifest is there, no create is unresolved and the operation's resources can be told apart; if these are in use by each other only, server before volume and port, port before group, nobody has to help: a resource is only released when what used it has been deleted by this cleanup |
| `OwnershipProgress.ProofCanCreate` | scripts/run_native_kvm_openstack.py:1604-1718 | From every initial world a proof can create all five resources, with each id of the cloud recorded on disk, and end |
| `OwnershipProgress.UnresolvedBlocksForEver` | scripts/run_native_kvm_openstack.py:1033-1083 | A create in flight without a recorded id and without a resource that is there or can still appear keeps every later run, whatever else happens, from a certificate |
| `OwnershipProgress.FinishableIff` | scripts/run_native_kvm_openstack.py:1033-1083 | Whatever an interrupted operation left behind, with the help of others a certificate is within reach if and only if no create is in flight that has no recorded id and of which nothing is or can still be there |
| `OwnershipProgress.AnnouncedCreateBlocks` | scripts/run_native_kvm_openstack.py:1604-1718 | A concrete run to such a state: a crash between an announcement and its create, which leaves the cloud as it was |
| `OwnershipProgram.ExecutionTellsTheTruth` | scripts/run_native_kvm_openstack.py:1106-1306 | At whatever point an execution of the programs stops, its files, deletes and certificate tell the truth, and the manifest is there for every create unless it was lost |
| `OwnershipProgram.Session.WriteManifest` | scripts/run_native_kvm_openstack.py:513-521 | The intent file goes first when a create is announced, and the two replacements are two steps |
| `OwnershipProgram.Session.DiscoverInflight` | scripts/run_native_kvm_openstack.py:1033-1083 | The listing loop records what is the operation's, kind by kind, and stops at an imposter, an ambiguity or a mismatch |
| `OwnershipProgram.Session.ListCandidates` | scripts/run_native_kvm_openstack.py:1043-1064 | The loop finds exactly the candidates of a kind, and fails exactly at an imposter |
| `OwnershipProgram.Session.WaitUntilAbsent` | scripts/run_native_kvm_openstack.py:1086-1103 | Polling ends with the resource gone, or with a failure when it is seen in an error state or the time is up |
| `OwnershipProgram.Session.RemoveKind` | scripts/run_native_kvm_openstack.py:1144-1301 | Lookup, refusal, waiting, delete and absence are taken step by step |
| `OwnershipProgram.Session.CleanupManifest` | scripts/run_native_kvm_openstack.py:1106-1306 | A whole cleanup is a run; it does nothing exactly without both files, is uncertain exactly with an intent alone, and certifies only what it wrote |
| `OwnershipProgram.Session.CreateResources` | scripts/run_native_kvm_openstack.py:1604-1718 | The creates of a proof are a run; it refuses to start over existing files, and success leaves all five ids on disk |
| `Publication.PublishersAgree` | scripts/publish_development_package.py:233-330 | In every interleaving, two publishers that succeed wanted the same tag, metadata, names and bytes |
| `Publication.AgreementIff` | scripts/publish_development_package.py:233-330 | Two successful publishers agree if and only if they wanted equally many assets |
| `Publication.MoreAssetsDisagree` | scripts/publish_development_package.py:84-119 | Without the rule of exactly three files they need not: a concrete run |
| `Publication.SuccessMeansPublished` | scripts/publish_development_package.py:271-314 | Whoever is done saw exactly its own names, and its tag, metadata and assets are and stay published with its own bytes |
| `Publication.NothingIsReplaced` | scripts/publish_development_package.py:162-314 | In every interleaving a tag, the metadata and the bytes of an asset stay what they first were |
| `Publication.RereadSucceedsIff` | scripts/publish_development_package.py:305-314 | A publisher that is about to read a release again that is exactly as it should be can still succeed undisturbed if and only if this was not its last attempt |
| `Publication.LastUploadComesTooLate` | scripts/publish_development_package.py:271-314 | For every directory that passes the local check there is a run of an undisturbed publisher of it whose fifth upload completes the release, and which cannot succeed any more |
| `Publication.OneAcceptedDirectory` | scripts/publish_development_package.py:84-119 | One wheel, one source distribution and their checksum list pass the local check |
| `PublicationAlone.AloneSucceedsIff` | scripts/publish_development_package.py:162-330 | A publisher that nobody disturbs can succeed if and only if the tag, the metadata and every asset are absent or already complete and as it wants them |
| `Publication.Republishing` | scripts/publish_development_package.py:317-330 | Publishing again what is published succeeds and changes nothing |
| `Publication.SnapshotsAreNested` | scripts/publish_development_package.py:233-245 | Any two publishers' snapshots of the release are prefixes of one history |
| `PublicationProgram.Client.EnsureTag` | scripts/publish_development_package.py:162-183 | The tag is read, created if absent, read again, and must be the wanted commit |
| `PublicationProgram.Client.VerifyOrRepair` | scripts/publish_development_package.py:271-314 | The five attempts, with downloads, uploads of absent assets only and rereads, are steps of the protocol |
| `PublicationProgram.Client.Publish` | scripts/publish_development_package.py:317-330 | Success means published; the remote state only grows whatever happens |

## Left out

- The full grammar of `parse_plan` and `parse_process`, device discovery, mounts, namespaces, cgroups, superblock checks: kernel behaviour or repetitions of the string, integer and network grammars.
- The JSON grammar of control messages and the bytes of exec frames: messages are values, an argument vector is its decoded arguments and the width of its spelling, and a frame on the wire is its size, its accounting fields and the output that it carries.
- MACs, digests, key generation and HKDF: authentication is a bit chosen by the environment, digests are injective; nothing is said about strength.
- Pacing: reconnect backoff, `lifecycle_poll_timeout`, `main_output_poll` and the outbound deadline appear only as answers of the environment.
- `next_sequence`, epochs and timestamps are natural numbers; their 64-bit wrap-around is not modelled, and neither is `lifecycle_crypto_kat`.
- Null queues, pumps and sessions, and an `eof` field that is neither 0 nor 1: the fields are typed.
- Bit masks and shifts on bytes outside SHA-256 and seccomp are written as quotients and remainders.
- `Bytes.Flatten` and the view functions only name things for the contracts and have no row of their own.
- Sha256.Context.Final: clears no secrets, because `secure_zero` has no effect that a later read could see.
- Seccomp.ProgramMeansPolicy: covers the reads of the number, the architecture and the low half of the first argument, which are the only ones in the table.
- RemoteExecs.RemoteExecJob.QueueExit: leaves out the wait status and the exit code that the frame carries, which the job only passes on.
- A session whose pump has failed: its runs end there. A teardown behind such a failure reads the channel at least once more, which the model leaves out; the job goes on.
- The queue that boundary lines and diagnostics share: whether the console takes a boundary line is an answer of the environment.
- OwnershipProgram.Session.RemoveKind: reads the bindings of a security group together with the group, where the program lists the ports afterwards.
- OwnershipProgram.Session.CreateResources: leaves out tags, the ingress rule and the status polls between the creates, which create and delete nothing.
- Two proof processes that start in one evidence directory at the same moment: the model has one program at a time.
- PublicationProgram.Client.VerifyOrRepair: uploads in any order, not only in that of the names, and does not model the pause between attempts.
- The bytes of SHA256SUMS and the parsing of its lines: a directory is given as its entries and file digests.
- SSH, tar, evidence bundles, signal handlers, the QEMU proof and its receipt checker, the CLI parsers, package build and architecture guards: plumbing around the modelled steps.
