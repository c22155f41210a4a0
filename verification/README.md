# PipeShellX: verified models of its concurrent cores

PipeShellX runs shell pipelines and fan-out commands over local processes, ssh workers and its own psx/1 backplane. This
project models the event-driven and byte-exact parts of it in Dafny and proves what they promise. Reactor events,
operating-system results, process outcomes and callbacks are arbitrary, so every theorem holds for all of them.

- **The psx/1 session** (`Wire`, `FrameCodec`, `Payloads`, `Messages`, `SessionSpec`, `Session`, `FlowFacts`,
  `StreamInvariant`, `StreamSteps`, `TwoParty*`, `HonestRuns`, `RunTheorems`, `TraceGrammar`, `SessionHistory`,
  `SessionLaws`, `SessionRuns`, `WireImages`).
  `SessionSpec` gives each API call and each received frame as a function on values; the class in `Session` is proved to
  follow it. `TwoParty` joins two endpoints by message queues with an invariant per stream and phase; `HonestRuns` joins
  them by byte channels with arbitrary chunking and interleaving and simulates the message level. Handlers may call back
  at any point, because arrivals, single-frame dispatches and API calls are separate steps. `TraceGrammar` drops honesty:
  one endpoint against arbitrary bytes. `SessionHistory` and `SessionLaws` tell from the history of calls and messages
  alone, without looking at the session, what it must have sent, when it fails and what its handler is told; the histories
  in `HonestRuns` are these. `SessionRuns` carries all this to the object, and `WireImages` fixes the bytes.
- **The fan-out scheduler** (`SchedulerSpec`, `SchedulerFacts`, `Scheduler`): a sliding window of processes with retries,
  deadline, cancellation, fail-fast and a drain grace. `account`, `teardown` and `fillSlots` call each other; the model
  keeps that recursion. A reactor batch may fire a backoff handler after a teardown; the collected batch is part of the
  state.
- **The local dataflow graph** (`Planner`, `DagSpec`, `DagFacts`, `DagSteps`, `DagRunner`, `DagWiring`): planning,
  bounded edges, copying on fan-out, round-robin merging on fan-in, pausing and resuming of producers.
- **Node-side backpressure** (`NodeStage`): stages' pipes on one side, a session on the other.
- **The native controller** (`NativeController`): a window of connections with deferred retirement.
- **Byte containers and printers** (`RingBuffer`, `Spool`, `ByteStream`, `Quoting`): the ring, the spill file, the
  ring-plus-spill stream, bounded capture, and quoting for three shells.

The honest-run theorems require, as `HonestRuns.Honest` states, that both ends use one window, positive and at most the
16 MiB frame limit. "Honest sessions never fail" is false without a further condition: an OPEN that crosses the node's own
GOAWAY is treated as a protocol error, and `open` accepts requests whose frame the node's decoder refuses.
`HonestRuns.FailsIffRefused` gives the exact condition, `RunTheorems.SomeHonestRunFails` and
`RunTheorems.OversizedOpenFailsTheNode` runs that fail.

The laws of `SessionLaws` hold against any peer, for any window up to 2^31-1, the most credit the protocol lets a stream have.

Other promises that turn out to hold only under a condition, each with its exact one: DATA that arrives after a stage broke
its stdin pipe is neither written nor credited while the stage lasts (`NodeStageSpec.HeldIffClosed`); a spill that cannot be
read back goes missing uncounted (`Capture.CaptureChannel.Finish`); PowerShell quoting survives splitting only without
typographic quotes (`Quoting.PowerShellRoundTrip`).

## Model

| member | source | states |
|---|---|---|
| `Wire.U32RoundTrip` | include/psx/transport/wire.hpp:10-23 | reading back a written 32-bit number gives that number |
| `Wire.U32Canonical` | include/psx/transport/wire.hpp:10-23 | four bytes are exactly the encoding of the number they read as |
| `WireImages.NumbersInOrder` | include/psx/transport/wire.hpp:10-23 | numbers are written most significant byte first: their images stand in the order of the numbers |
| `WireImages.EnvelopeImage` | src/transport/frame_codec.cpp:7-20 | type, flags, stream, length and payload at their offsets |
| `WireImages.DataImage` | src/transport/session.cpp:93-97 | the bytes of a DATA frame for every flag combination |
| `WireImages.CreditImage` | src/transport/control_payloads.cpp:34-38 | the bytes of a WINDOW_UPDATE |
| `WireImages.ExitImages` | src/transport/control_payloads.cpp:13-18 | the bytes of the three kinds of EXIT, one with a negative code |
| `WireImages.ConnectionImages` | src/transport/session.cpp:175-188 | the bytes of PING, PONG and GOAWAY |
| `WireImages.OpenImage` | src/transport/open_request.cpp:81-92 | the bytes of an OPEN with an empty argument and a working directory |
| `FrameCodec.RestIsBounded` | src/transport/frame_codec.cpp:22-52 | after a successful push fewer than header plus maximal payload bytes are kept |
| `FrameCodec.ParseSplit` | src/transport/frame_codec.cpp:22-52 | parsing in two instalments gives the frames and the verdict of parsing at once |
| `FrameCodec.ChunkingIsIrrelevant` | src/transport/frame_codec.cpp:22-52 | frames, failure and leftover depend only on the concatenated bytes, for every chunking |
| `FrameCodec.DecodeInvertsEncode` | src/transport/frame_codec.cpp:7-52 | decoding the concatenated encodings of any fitting frames gives those frames, with nothing left |
| `FrameCodec.EncodeInvertsDecode` | src/transport/frame_codec.cpp:7-52 | the bytes consumed by the decoder are exactly the encodings of the frames it emitted |
| `FrameCodec.PartialOfEncoded` | src/transport/frame_codec.cpp:29-38 | a proper prefix of a frame is incomplete, never an error |
| `FrameCodec.FrameDecoder.Push` | src/transport/frame_codec.cpp:22-52 | the streaming loop emits the frames, verdict and leftover of the one-shot parser; a poisoned decoder emits nothing |
| `OpenPayload.DecodeOpenIff` | src/transport/open_request.cpp:54-129 | `decodeOpen` accepts a payload exactly when it is `encodeOpen` of a valid request, and returns that request |
| `OpenPayload.ReadArguments` | src/transport/open_request.cpp:111-118 | the argument loop reads exactly what the recursive cursor reads, or fails |
| `ControlPayloads.DecodeExitIff` | src/transport/control_payloads.cpp:13-32 | an EXIT payload decodes to a status exactly when it is that status's encoding, for every 32-bit code |
| `ControlPayloads.DecodeWindowUpdateIff` | src/transport/control_payloads.cpp:34-49 | a WINDOW_UPDATE payload decodes exactly when it encodes a nonzero delta |
| `Messages.InterpretIff` | src/transport/session.cpp:17-34 | a frame means a message exactly when the message is well formed and the frame is its form (only EXIT may omit its flag) |
| `Messages.FrontOfHonestStream` | src/transport/frame_codec.cpp:22-52 | on any prefix of an honest byte stream the decoder sees the next message or an incomplete frame, never an error |
| `CreditWindows.Consumed` | src/stream/credit_window.cpp:18-31 | consuming moves bytes from outstanding to pending or to an update without creating or losing credit, leaves nothing pending when all is consumed and less than half a window otherwise, and an update short of that means all is consumed |
| `CreditWindows.CreditWindow.OnData` | src/stream/credit_window.cpp:10-16 | accepts data exactly when it fits the window and then counts it as outstanding |
| `CreditWindows.CreditWindow.OnConsumed` | src/stream/credit_window.cpp:18-31 | the object follows the credit specification |
| `SessionObject.Session.Open` | src/transport/session.cpp:49-58 | the object's new state, written bytes and callbacks are those of the specification: a refused open returns 0 and changes nothing, an accepted one sends OPEN under a fresh id |
| `SessionObject.Session.SendData` | src/transport/session.cpp:60-81 | the object's new state, written bytes and callbacks are those of the specification, which `SessionLaws` pins to the history of calls: ignored on unknown, closed or exiting streams and, at a controller, on stderr; otherwise queued and flushed |
| `SessionObject.Session.DrainQueue` | src/transport/session.cpp:85-106 | the draining loop sends what the recursive specification sends and leaves the same stream |
| `SessionObject.Session.FlushStream` | src/transport/session.cpp:83-124 | the object's new state, written bytes and callbacks are those of the specification: data, then the pending end, then the deferred EXIT, then the writable callback |
| `SessionObject.Session.CloseLocal` | src/transport/session.cpp:126-129 | the object's new state, written bytes and callbacks are those of the specification: the stream is forgotten except for whether the peer has closed its data |
| `SessionObject.Session.StreamWritable` | src/transport/session.cpp:131-134 | a producer has room exactly while its stream's queued bytes total less than the window (queues are sound in every run); an unknown stream holds nobody up |
| `SessionObject.Session.Consume` | src/transport/session.cpp:136-148 | the object's new state, written bytes and callbacks are those of the specification: credit is returned when the window says so |
| `SessionObject.Session.SendExit` | src/transport/session.cpp:150-173 | the object's new state, written bytes and callbacks are those of the specification, which `SessionLaws` pins to the history of calls: the first one on a stream the node holds is sent at once or deferred behind queued data |
| `SessionObject.Session.Ping` | src/transport/session.cpp:175-180 | the object's new state, written bytes and callbacks are those of the specification: one PING unless failed |
| `SessionObject.Session.GoAway` | src/transport/session.cpp:182-188 | the object's new state, written bytes and callbacks are those of the specification: one GOAWAY ever |
| `SessionObject.Session.Receive` | src/transport/session.cpp:190-211 | all complete frames are dispatched in order, each followed by whatever its handler calls back, until the first error; the rest stays buffered; the result says whether the session is still good |
| `SessionObject.EveryFrameIsTaken` | src/transport/session.cpp:190-211 | a receive dispatches exactly the complete frames the one-shot parser finds, in order, up to the first error, keeps only the incomplete rest, and fails on a frame that is too long |
| `SessionObject.Session.DispatchAndReply` | src/transport/session.cpp:195-205 | the object's new state, written bytes and callbacks are those of the specification: a frame, then any calls its handler makes back into the session |
| `SessionObject.Session.Dispatch` | src/transport/session.cpp:213-323 | the object's new state, written bytes and callbacks are those of the specification: every frame type, every check |
| `SessionObject.Session.OnOpenFrame` | src/transport/session.cpp:215-234 | the object's new state, written bytes and callbacks are those of the specification: only the next id, only at a node, never after GOAWAY |
| `SessionObject.Session.OnDataFrame` | src/transport/session.cpp:235-267 | the object's new state, written bytes and callbacks are those of the specification: including data crossing a local close and window overrun |
| `SessionObject.Session.OnCreditFrame` | src/transport/session.cpp:297-320 | the object's new state, written bytes and callbacks are those of the specification: including credit crossing a local close and window overflow |
| `SessionRuns.QueuesStaySound` | src/transport/session.cpp:60-124 | whatever arrives and is called, every stream's byte count is the length of its queue |
| `SessionRuns.UseOnce` | src/transport/session.cpp:49-211 | each use of the object extends the observed run it shows |
| `SessionRuns.UseAll` | src/transport/session.cpp:40-323 | a session object, after any sequence of calls and received bytes with handlers calling back, has the state, output and callbacks of an observed run: it follows the stream grammar and the delivery bound, and its output is what its history of calls and messages makes of it |
| `SessionRuns.RunsAreLived` | src/transport/session.cpp:40-323 | the session of every observed run, and all it wrote, is what its history of calls and accepted messages makes of it, so the laws of histories hold of every run |
| `SessionHistory.HistoryIsRecorded` | src/transport/session.cpp:40-323 | for every history of calls and well-formed messages of either role: as long as the session has not failed, each stream's credit, queue, flags, window and output are what the history alone says they are |
| `SessionLaws.SendsAllItIsTold` | src/transport/session.cpp:60-124 | what is on the wire of a stream is, in order, what `sendData` was handed since the stream began and before its data was ended, its exit reported or, at a controller, `onExit`, on every channel of a node and on stdout of a controller; it falls short only when the peer's credit is spent to the last byte |
| `SessionLaws.ExitIsSent` | src/transport/session.cpp:108-173 | EXIT is written exactly once `sendExit` was called on the stream and all it was told to send is written; with the first status, once, and last |
| `SessionLaws.CreditIsReturned` | src/transport/session.cpp:136-148 | on a live stream the credit given back is what was consumed, all of it once everything is consumed and otherwise short by less than half a window; what is unread is within the window |
| `SessionLaws.OpensWhenAllowed` | src/transport/session.cpp:49-58 | `open` writes the next number's OPEN exactly at a controller that neither sent nor received GOAWAY and has numbers left, for one to 1024 arguments of at most 128 KiB, the first not empty, and a directory of at most 32 KiB, without NUL; otherwise nothing |
| `SessionLaws.ControlsAreDue` | src/transport/session.cpp:175-188 | connection messages are written when due and at no other time: a PING per `ping`, a GOAWAY for the first `goAway`, a PONG per PING received, in order |
| `SessionLaws.FailsExactlyOnViolation` | src/transport/session.cpp:213-323 | after any history the session fails on a well-formed message exactly when the protocol does not permit it: wrong role, wrong number, after GOAWAY, unknown or ended stream, stderr towards a node, data beyond the window, credit beyond 2^31-1 |
| `SessionLaws.CallbacksAreDue` | src/transport/session.cpp:213-323 | the handler is told of every permitted message exactly what it says, except data for a stream whose EXIT was sent |
| `SessionLaws.CallsNeverFail` | src/transport/session.cpp:49-188 | no call makes the session fail |
| `SessionLaws.SendDataKeepsAll` | src/transport/session.cpp:60-81 | on an unfailed session whose stream has neither its data ended nor an exit pending, on any channel of a node and stdout of a controller: what was owed, then the new bytes and half-close, is what is written, then what is owed; nothing stays queued while credit is left |
| `SessionLaws.FirstExitIsTaken` | src/transport/session.cpp:150-173 | the first `sendExit` on a stream a node holds writes EXIT and forgets the stream, or leaves it pending with that status behind unsent data |
| `SessionLaws.FlushIsCompact` | src/transport/session.cpp:85-106 | a flush writes at most one frame per queued segment; the half-close rides the last one and takes an empty stdout frame only when nothing is queued |
| `SessionLaws.WritableExactly` | src/transport/session.cpp:120-123 | the producer is told exactly when a queue of at least a window drains below it and the stream goes on |
| `FlowFacts.DrainSound` | src/transport/session.cpp:83-106 | draining spends exactly the credit of the bytes it sends, stops only when queue or credit is exhausted, and keeps the queue's byte count right |
| `FlowFacts.DrainTokens` | src/transport/session.cpp:83-106 | what was owed is what was sent followed by what is still owed, byte for byte and channel for channel |
| `FlowFacts.FlushShape` | src/transport/session.cpp:83-119 | a flush sends data and, exactly when nothing is left behind it, the deferred EXIT |
| `TwoPartySteps.ControllerStep` | src/transport/session.cpp:49-188 | every API call at the controller keeps the two-party invariant |
| `TwoPartySteps.NodeStep` | src/transport/session.cpp:60-188 | every API call at the node keeps the two-party invariant |
| `TwoPartyDeliveries.NodeDelivery` | src/transport/session.cpp:213-323 | every message delivered to the node keeps the invariant, except an OPEN that crosses the node's own GOAWAY |
| `TwoPartyDeliveries.ControllerDelivery` | src/transport/session.cpp:213-323 | every message delivered to the controller keeps the invariant |
| `TwoPartyDeliveries.ExitAfterAllData` | src/transport/session.cpp:268-283 | when EXIT is delivered the controller has been given all the node sent, and the node's status |
| `HonestRuns.RunKeepsInvariant` | src/transport/session.cpp:40-323 | every byte-level run of two sessions in which no OPEN is refused is a run of the message-level protocol, with its invariant and true histories both ways |
| `HonestRuns.RunKeepsHistory` | src/transport/session.cpp:40-323 | the same for every honest run, refused or not: a refused node stays as it was and what it had sent keeps arriving |
| `HonestRuns.FailsIffRefused` | src/transport/session.cpp:190-323 | in every interleaving and chunking of honest sessions with any requests, one of them fails exactly when the node dispatches an OPEN after sending GOAWAY or meets the header of an OPEN above 16 MiB; the controller never fails |
| `HonestRuns.FailsIffCrossed` | src/transport/session.cpp:190-323 | if every OPEN fits a frame, one of them fails exactly when the node dispatches an OPEN after sending GOAWAY |
| `HonestRuns.HonestSessionsNeverFail` | src/transport/session.cpp:190-323 | if the node never calls `goAway` and no OPEN exceeds a frame, `receive` never fails on either side; data and credit crossing an EXIT are tolerated |
| `RunTheorems.SomeHonestRunFails` | src/transport/session.cpp:220-222 | a concrete honest run in which the node fails: open at the controller, `goAway` at the node, delivery of the OPEN |
| `RunTheorems.CrossingFailsTheNode` | src/transport/session.cpp:220-222 | the same for every valid request and window |
| `RunTheorems.OversizedOpenFailsTheNode` | src/transport/session.cpp:49-58 | every such request, once sent, fails the node on the frame's header |
| `RunTheorems.SomeValidOpenIsOversized` | src/transport/open_request.cpp:54-79 | a request that `open` accepts and that does not fit a frame |
| `HonestRuns.CreditIsConserved` | src/transport/session.cpp:83-148 | credit conservation per stream and direction in every state of the invariant, from the controller's OPEN until the node's EXIT; afterwards the sums stay within the window |
| `RunTheorems.CreditConservedInEveryRun` | src/stream/credit_window.cpp:10-31 | in every reachable state and for every stream, also one whose OPEN is still in flight: sender credit, data in flight, outstanding, pending and credit in flight add up to the window, both ways; at most the window once the node has exited; also after a refusal |
| `HonestRuns.NoCreditDeadlock` | src/transport/session.cpp:83-124 | quiet channels and consumed data imply that a stream either end holds is held by both, with full credit, empty queues and no pending end or EXIT |
| `RunTheorems.NoDeadlockInAnyRun` | src/transport/session.cpp:83-124 | the same for every live stream of every reachable byte-level state in which nothing was refused |
| `HonestRuns.NothingOvertakes` | src/transport/session.cpp:60-124 | what the node accepted is what the controller got, then what is in flight, then what is queued; likewise towards the node |
| `HonestRuns.ExitNeverOvertakesData` | src/transport/session.cpp:150-173 | in every honest run, when `onExit` fires, what was delivered on the stream equals everything handed to the node's `sendData` between `onOpen` and the first end or exit call, and the status is that of the first `sendExit` |
| `HonestRuns.DeliveredIsPrefix` | src/transport/session.cpp:60-124 | in every honest run what was delivered is a prefix of what was handed to the node's `sendData` in that time |
| `HonestRuns.StdinIsPrefix` | src/transport/session.cpp:60-124 | towards the node, in every honest run: what its `onData` was given is a prefix of what was handed to the controller's `sendData` on stdout between `open` and the first end call or `onExit` |
| `HonestRuns.NodeLives` | src/transport/session.cpp:40-323 | the node's session in a run is what its history of calls and accepted messages makes of it, until it fails |
| `HonestRuns.ControllerLives` | src/transport/session.cpp:40-323 | the same for the controller's session |
| `RunTheorems.ExitSeenIff` | src/transport/session.cpp:268-283 | the controller has been given an exit exactly if an EXIT arrived, and it is the one first reported at the node |
| `RunTheorems.OutputArrives` | src/transport/session.cpp:60-173 | in every run without a refusal: once all bytes have arrived and the controller has consumed what it was given on a stream, everything handed to the node's `sendData` has been delivered, and the exit the node reported as well |
| `RunTheorems.StdinArrives` | src/transport/session.cpp:60-148 | the same towards the node for every stream on which it reported no exit |
| `TraceGrammar.TracesFollowTheGrammar` | src/transport/session.cpp:190-323 | for arbitrary bytes and API calls: at a node open, data, at most one end, last; at a controller only opened ids, data, at most one final exit |
| `TraceGrammar.NodeAnnouncesInOrder` | src/transport/session.cpp:223-232 | a node announces streams 1, 2, 3, ... without gap |
| `TraceGrammar.DeliveryIsBounded` | src/transport/session.cpp:258-260 | unconsumed delivered bytes of every stream, open or closed, never exceed the window, whatever the peer sends and the application calls |
| `TraceGrammar.ErrorsSilenceForever` | src/transport/session.cpp:40-47 | after the first error no frame is written and no callback is made, ever |
| `SchedulerFacts.Partition` | src/process_manager.cpp:210-311 | every uncounted worker is in exactly one place: pending, queued, backing off on an armed timer, or running with an unreaped process or an open pipe |
| `SchedulerFacts.Progress` | src/process_manager.cpp:210-311 | at every event boundary short of completion some worker is running or a backoff timer is armed |
| `SchedulerFacts.SpawnBound` | src/process_manager.cpp:238-286 | no worker is started more than maxRetries + 1 times |
| `SchedulerFacts.CountedWasStarted` | src/process_manager.cpp:210-262 | no worker is counted without having been started for its last attempt, unless a teardown ended it; outside a teardown nobody is marked |
| `SchedulerFacts.StopIsClean` | src/process_manager.cpp:250-254 | when the loop is told to stop, all are counted and complete and no process, timer, queued or pending worker is left |
| `SchedulerFacts.AbortHasCulprit` | src/process_manager.cpp:255-261 | a fail-fast abort always has a worker that finished in failure |
| `SchedulerFacts.DueIsArmed` | src/process_manager.cpp:288-307 | a fired backoff timer whose worker is not counted finds the run neither cancelled nor torn down, so the cancelled branch is unreachable |
| `SchedulerFacts.AccountFills` | src/process_manager.cpp:238-262 | accounting for a worker that has its slot leaves the waiting ones alone unless it aborts the run |
| `Scheduler.WorkerRun.Account` | src/process_manager.cpp:238-262 | skip, retry, count or count-and-abort, with the exact new state of each, and one count per worker |
| `SchedulerFacts.AccountedMeans` | src/process_manager.cpp:238-274 | in terms of the worker: one whose child is gone and whose pipes are closed is retried if and only if neither cancel nor abort is on, attempts are left, it was started, did not time out, exited with 255 and its failure was transient; any other is counted; a failure (timeout, start failure, or any code but 0) aborts a fail-fast run with workers left |
| `SchedulerFacts.TearsDownMeans` | src/process_manager.cpp:512-565 | in terms of the workers: a teardown shuts and counts whoever has nothing running, marks whoever runs with its reason, changes nothing else of either, and leaves nobody waiting |
| `Scheduler.WorkerRun.ScheduleRetry` | src/process_manager.cpp:276-286 | the worker waits with one more attempt and an armed timer |
| `Scheduler.WorkerRun.Teardown` | src/process_manager.cpp:512-572 | idle workers are marked and counted, running ones marked and left running, counted ones untouched but for marks; queue, pending list and timers are empty and the drain timer is armed |
| `Scheduler.WorkerRun.Finish` | src/process_manager.cpp:526-528 | a worker with nothing running is marked, closed and counted, even when that starts a fail-fast abort |
| `Scheduler.WorkerRun.FinishQueue` | src/process_manager.cpp:524-530 | every queued worker ends, in the order the walk began with |
| `Scheduler.WorkerRun.FinishPending` | src/process_manager.cpp:532-537 | every pending worker ends without running |
| `Scheduler.WorkerRun.StopRunning` | src/process_manager.cpp:538-567 | every worker left uncounted is marked and not backing off |
| `Scheduler.WorkerRun.StopWorker` | src/process_manager.cpp:539-556 | counted: untouched; backing off: finished; running: marked |
| `Scheduler.WorkerRun.FillSlots` | src/process_manager.cpp:210-234 | whoever waited still does, untouched and in order, or was started, or was counted by an abort on the way; pending workers start only once the retry queue is empty; others change only by such an abort; afterwards work waits only if every slot is taken; a nested call does nothing |
| `Scheduler.WorkerRun.StartNext` | src/process_manager.cpp:215-231 | one more worker leaves the queue or the pending list and the run stays in order |
| `Scheduler.WorkerRun.Pop` | src/process_manager.cpp:217-222 | retries go before pending workers, each in order |
| `Scheduler.WorkerRun.Arm` | src/process_manager.cpp:324-352 | a child already gone when watched, or one that could not start, leaves the run in order |
| `Scheduler.WorkerRun.Settle` | src/process_manager.cpp:238-262 | `account` on the one worker that may be complete restores every fact that holds between events |
| `Scheduler.WorkerRun.Reap` | src/process_manager.cpp:474-484 | exit status recorded, slot freed |
| `Scheduler.WorkerRun.OnExit` | src/process_manager.cpp:474-490 | reaped and accounted for exactly, then slots refilled from there; during a teardown a complete worker is counted |
| `Scheduler.WorkerRun.OnPipeClosed` | src/process_manager.cpp:403-411 | exactly that pipe of the worker is closed, and it is accounted for |
| `Scheduler.WorkerRun.OnRetry` | src/process_manager.cpp:288-311 | a counted worker is never resurrected and nothing else changes; otherwise nothing is left of its last attempt, it is queued last, and from there the slots are filled: it still waits behind full slots, was started, or fell to an abort on the way |
| `Scheduler.WorkerRun.OnDeadline` | src/process_manager.cpp:494-497 | a teardown for timeout |
| `Scheduler.WorkerRun.OnCancel` | src/process_manager.cpp:503-510 | a teardown for cancellation; the second signal changes nothing |
| `Scheduler.WorkerRun.OnDrainExpired` | src/process_manager.cpp:588-609 | one drain expiry counts every remaining worker |
| `Scheduler.WorkerRun.Abandon` | src/process_manager.cpp:590-607 | a worker whose pipes are held by others is closed, reaped with whatever status it has and counted |
| `Scheduler.WorkerRun.Handle` | src/process_manager.cpp:187-203 | each event has its effect, stated case by case; every one keeps the facts that hold between events, never uncounts a worker and never lowers a spawn count |
| `Scheduler.WorkerRun.Run` | src/process_manager.cpp:187-203 | so does every sequence of events from the start, each handled in turn: processes never exceed the concurrency, counted workers never change but for marks |
| `Scheduler.WorkerRun.OverallExitCode` | src/process_manager.cpp:812-853 | zero exactly when nobody cancelled and every client was started, exited with 0, and was neither timed out nor aborted; 130 when cancelled; else the code of the last client that failed by itself (127 if it could not start, -1 if it was lost, 1 where the code is zero), which no aborted client hides |
| `Scheduler.FailedAloneMeans` | src/process_manager.cpp:264-266 | failing by itself in terms of marks, start and code; the culprit of an abort is such a failure |
| `Planner.FaultFreeIff` | src/pipeline/planner.cpp:18-51 | the checks pass exactly on distinct, named stages with commands and edges between two different known stages |
| `Planner.FirstStageComplaint` | src/pipeline/planner.cpp:22-35 | the first stage with something wrong decides: no name, else no command, else a repeated name |
| `Planner.FirstLinkComplaint` | src/pipeline/planner.cpp:37-57 | with all stages in order, the first wrong edge decides: an unknown stage, else a self-loop |
| `Planner.IndexStages` | src/pipeline/planner.cpp:22-35 | the first stage complaint, or the position of every id |
| `Planner.BuildGraph` | src/pipeline/planner.cpp:37-57 | the first edge complaint, or the deduplicated graph with right successors and in-degrees |
| `Planner.Kahn` | src/pipeline/planner.cpp:59-77 | producers before consumers, no node twice; stopping short means there is a cycle |
| `Planner.Stuck` | src/pipeline/planner.cpp:78-80 | nodes left over when the queue runs dry lie on or behind a cycle |
| `Graphs.WalkBack` | src/pipeline/planner.cpp:78-80 | a finite set in which everybody waits for somebody contains a cycle |
| `Graphs.OrderedIsAcyclic` | src/pipeline/planner.cpp:59-81 | a graph with a topological order has no cycle |
| `Planner.MakePlan` | src/pipeline/planner.cpp:17-82 | faulty pipelines give their first complaint; others succeed exactly when acyclic, with a permutation of the ids and every producer before its consumers |
| `Planner.IsDeclaredChain` | src/cli/pipe_command.cpp:176-193 | on an order without repetition: true exactly when the deduplicated edges are its consecutive pairs |
| `Planner.StagesInPlanOrder` | src/cli/pipe_command.cpp:158-171 | the stages themselves in plan order, a permutation of the declared ones |
| `DagWiring.Connect` | src/pipeline/dag_runner.cpp:147-166 | one edge per distinct declared link, indexed consistently; on a plan's order every edge points forward |
| `DagWiring.Start` | src/pipeline/dag_runner.cpp:121-166 | a runner exactly for a positive capacity, local stages and a plannable pipeline; its nodes are the stages in plan order and its edges exactly the declared links, once each and forward |
| `DagFacts.PassedOver` | src/pipeline/dag_runner.cpp:344-361 | a waiting input is passed over fewer times in a row than there are inputs |
| `DagSteps.MergeIsFair` | src/pipeline/dag_runner.cpp:344-361 | the same for every reachable state of a run |
| `DagSteps.NothingIsLost` | src/pipeline/dag_runner.cpp:252-361 | while a stage is fed, all its predecessor wrote is what was passed on from that edge followed by the edge's buffer |
| `DagSteps.FinishedMeansAll` | src/pipeline/dag_runner.cpp:375-383 | a stdin closed normally has received every byte of every predecessor, all of which have closed |
| `DagSteps.OutcomeIsWhole` | src/pipeline/dag_runner.cpp:463-483 | a reported outcome is the only one, comes when every child has exited and every output has ended, has each stage's own code, and is zero exactly if all are, else the code of the last stage that failed |
| `DagSteps.OverIsReported` | src/pipeline/dag_runner.cpp:463-483 | a run that is over and was not cancelled has its outcome |
| `DagFacts.PipeFailMeans` | src/pipeline/dag_runner.cpp:470-478 | the pipefail rule on any list of codes |
| `DagSteps.ClosedInputMeansAll` | src/pipeline/dag_runner.cpp:338-406 | a stdin that is closed although no write to it failed, the child has not exited and the run was not cancelled has received every byte of every predecessor, all of which have closed |
| `DagSteps.CausesFollow` | src/pipeline/dag_runner.cpp:338-406 | draining keeps the causes true: an input counts as broken exactly if a write to it failed, as lost with its child only if that exited, as cancelled only if the run was; a stage is credited with exactly what its pipe took |
| `DagSteps.GivenIsWritten` | src/pipeline/dag_runner.cpp:353-361 | the turns recorded for a stage are, in order, the bytes its stdin pipe took |
| `DagSteps.ChainPasses` | src/pipeline/dag_runner.cpp:252-406 | a stage with one predecessor has its pipe take a prefix of that output: all but the buffer while it is fed, all of it once closed with the pipe unbroken, the child alive and no cancellation |
| `DagSteps.BufferedIsBounded` | src/pipeline/dag_runner.cpp:291-293 | the buffered count is the sum of the edges and at most edges times capacity |
| `DagSteps.PausedWaitsForLiveConsumer` | src/pipeline/dag_runner.cpp:258-269 | a paused producer has a full open edge whose consumer is alive and has write interest |
| `DagSteps.NothingStaysPaused` | src/pipeline/dag_runner.cpp:408-421 | once every child is gone no open output is paused |
| `DagSteps.FeedKeeps` | src/pipeline/dag_runner.cpp:353-361 | one write keeps everything but the pause state of that producer, which is set next |
| `DagSteps.SpreadKeeps` | src/pipeline/dag_runner.cpp:284-300 | a read that fits every open edge loses nothing and leaves only the consumers to drain |
| `DagSteps.ShutKeeps` | src/pipeline/dag_runner.cpp:385-406 | closing a consumer discards its input and resumes its producers |
| `DagSteps.EndedKeeps` | src/pipeline/dag_runner.cpp:311-334 | the end of an output leaves only its consumers to drain |
| `DagRunner.Runner.OnProducerReadable` | src/pipeline/dag_runner.cpp:252-309 | all available bytes are read and recorded in order unless an open edge is full, and then the producer is paused; it is closed only when all were read and an end or error followed; other producers' reads are untouched, no child exits, inputs end only drained or broken |
| `DagRunner.Runner.ReadLimit` | src/pipeline/dag_runner.cpp:256-269 | the largest read of at most a full scratch buffer that fits every open edge; zero only if one is full |
| `DagRunner.Runner.Deliver` | src/pipeline/dag_runner.cpp:277-301 | the bytes go to every open edge or to the output, and every consumer is drained |
| `DagRunner.Runner.Append` | src/pipeline/dag_runner.cpp:284-295 | each open outgoing edge gets the bytes exactly once and its consumer is noted |
| `DagRunner.Runner.CloseProducer` | src/pipeline/dag_runner.cpp:311-336 | edges learn of the end, consumers are drained, completion is considered |
| `DagRunner.Runner.DrainConsumer` | src/pipeline/dag_runner.cpp:338-383 | afterwards the consumer waits for its pipe, waits for a predecessor, or is closed, the last only because a write to it failed or every predecessor has closed and nothing is buffered; no stage is credited with bytes its pipe did not take, nor one taken forgotten; if bytes are left, the last write tried took nothing; reads, output, exits and earlier writes stay as they were |
| `DagRunner.Runner.WriteOnce` | src/pipeline/dag_runner.cpp:353-371 | one write: bytes are passed on, or the pipe took nothing and is watched, or it broke and the input is closed |
| `DagRunner.Runner.FindInput` | src/pipeline/dag_runner.cpp:345-352 | the first input with data at or after the cursor, or none |
| `DagRunner.Runner.Feed` | src/pipeline/dag_runner.cpp:353-361 | what the pipe has just taken leaves the edge from its front, is recorded as the stage's, and the producer's interest is re-evaluated |
| `DagRunner.Runner.NothingBuffered` | src/pipeline/dag_runner.cpp:375-382 | with nothing buffered the input is closed as finished if no predecessor can deliver more, and waits otherwise |
| `DagRunner.Runner.CloseConsumer` | src/pipeline/dag_runner.cpp:385-406 | stdin closed for the stated reason and no other input touched, its buffers dropped from the count, no producer left paused without cause |
| `DagRunner.Runner.ProducerCanRead` | src/pipeline/dag_runner.cpp:408-421 | true exactly when no open outgoing edge is full |
| `DagRunner.Runner.OnChildExit` | src/pipeline/dag_runner.cpp:440-461 | exit recorded once, stdin closed, completion considered; a second exit changes nothing; no other stage exits or has its input end |
| `DagRunner.Runner.FinishIfDone` | src/pipeline/dag_runner.cpp:463-483 | one report is added exactly when all have exited and closed and none was made before, with all exit codes; its code is zero only if every stage's is, and otherwise that of the last stage that failed |
| `DagRunner.Runner.Cancel` | src/pipeline/dag_runner.cpp:71-119 | everything closed, cleared and marked gone, in exactly that state; completion is not reported afterwards |
| `DagRunner.Runner.Handle` | src/pipeline/dag_runner.cpp:252-483 | each event has its effect, stated case by case: a readable pipe is read as far as there is room, a writable one written until it takes no more, an exit recorded, a cancellation carried out; a pipe event lets no child exit and ends inputs only as drained or broken, an exit ends no other stage's input |
| `DagRunner.Runner.Run` | src/pipeline/dag_runner.cpp:252-483 | over every sequence of events, each handled in turn, the invariant holds and nothing is taken back: reads, writes to stages, output and outcomes only grow, and exits, codes, closes and completion are final |
| `NodeStageSpec.Backpressure` | src/transport/node_stage_runner.cpp:118-208 | unsent bytes stay below the window plus one read, a paused stage has at least a window unsent, buffered stdin equals the outstanding credit and so is at most the window |
| `NodeStageSpec.ResumeIsNeverMissed` | src/transport/session.cpp:120-123 | credit that brings a paused stage's queue below the window makes the session call for a resume, and only then |
| `NodeStageSpec.CreditArrives` | src/transport/session.cpp:297-320 | after credit a stage is in order, or exactly resuming it restores order |
| `NodeStageSpec.SendKeeps` | src/transport/node_stage_runner.cpp:136-144 | forwarding one read on a writable stream keeps the bounds |
| `NodeStageSpec.WriteInterest` | src/transport/node_stage_runner.cpp:199-207 | write interest is armed exactly while stdin is open and bytes are buffered, so bytes wait unwatched exactly when stdin is closed |
| `NodeStageSpec.HeldIffClosed` | src/transport/node_stage_runner.cpp:168-208 | arriving bytes are bound to stay buffered, whatever the pipe does, exactly when stdin was closed before |
| `NodeStageSpec.HeldForGood` | src/transport/node_stage_runner.cpp:182-208 | from a closed stdin on, over any stretch of a run in which the stage lasts, nothing is fed or granted and all that arrives piles up in the buffer |
| `NodeStageSpec.SomeByteIsHeld` | src/transport/node_stage_runner.cpp:182-208 | a byte that arrives after the stage broke its stdin pipe is held, unwritten and ungranted |
| `NodeStageSpec.StdinClosedForCause` | src/transport/node_stage_runner.cpp:168-208 | unless a write to it failed, a stage's stdin is closed only after its end was announced, and all that was received was taken by its pipe, in order, or is buffered |
| `NodeStage.NodeStageRunner.OnReadable` | src/transport/node_stage_runner.cpp:118-153 | the bytes taken from the pipe are handed to the session in order, and the session is exactly what those sends make of it; without room at the end the stage is paused and nothing else changes, else all was taken and exactly an end or error closes this reader, leaving the other; a stage that is over then sends EXIT and goes |
| `NodeStage.AfterReadsMeans` | src/transport/node_stage_runner.cpp:145-167 | in terms of the two readers: an end or error closes that reader and no other; the stage goes exactly if its child has exited and no reader is left |
| `NodeStage.NodeStageRunner.CloseReader` | src/transport/node_stage_runner.cpp:155-167 | that reader is closed and nothing else changes |
| `NodeStage.NodeStageRunner.OnData` | src/transport/node_stage_runner.cpp:168-181 | delivered bytes join the stage's buffer and are drained; what is granted is what left the buffer; without a stage nothing changes |
| `NodeStage.NodeStageRunner.DrainStdin` | src/transport/node_stage_runner.cpp:182-208 | what the pipe took is the front of the buffer, in order, and credit is granted for exactly that; only a failed write breaks stdin, drops the rest and grants it too; otherwise stdin is closed exactly when all is written and the end was announced; a closed stdin takes nothing and grants nothing |
| `NodeStage.NodeStageRunner.OnStdinWritable` | src/transport/node_stage_runner.cpp:209-214 | the same on a writable event; without a stage nothing changes |
| `NodeStage.NodeStageRunner.OnOpen` | src/transport/node_stage_runner.cpp:44-91 | a refused command sends its diagnostic and exits 126, an empty or unstartable one exits 127, any other becomes a running stage with all three pipes open and nothing buffered |
| `NodeStage.NodeStageRunner.OnStageExit` | src/transport/node_stage_runner.cpp:227-240 | the status is recorded; the stage is removed and EXIT sent exactly when no output is open |
| `NodeStage.NodeStageRunner.ResumeReads` | src/transport/node_stage_runner.cpp:252-263 | a paused stage is read again at once; unless it is paused anew or finished, all that was available on both pipes has been handed over, in order, and each reader is closed exactly if its end came; any other stage is left as it was |
| `NodeStage.NodeStageRunner.FinishIfDone` | src/transport/node_stage_runner.cpp:265-275 | EXIT is sent and the stage removed exactly when it has exited and both outputs are closed |
| `NodeStage.NodeStageRunner.OnFrame` | src/transport/session.cpp:213-323 | a frame's session step and exactly what its callback has the runner do: the outcome of an OPEN, data joined and drained, a paused stage read again, nothing otherwise; every stage stays in order, and a running stage receives every byte of a DATA frame, and its END_STREAM |
| `NodeStage.NodeStageRunner.Handle` | src/transport/node_stage_runner.cpp:44-275 | each event has its effect, stated case by case |
| `NodeStage.NodeStageRunner.Run` | src/transport/node_stage_runner.cpp:44-275 | over every sequence of frames and pipe events, each handled in turn, each stage's received bytes are granted or still buffered, what was received and fed only grows, and nothing is fed or granted once stdin is closed |
| `ControllerSpec.Progress` | src/transport/native_controller.cpp:173-293 | short of completion some connection is unretired, so another event is due |
| `ControllerSpec.CompletionIsWhole` | src/transport/native_controller.cpp:279-293 | a reported outcome is the only one and has one result per target in target order, after all are done and retired |
| `NativeController.Controller.constructor` | src/transport/native_controller.cpp:145-170 | without targets the run completes at once with no results; otherwise the first connections are launched |
| `NativeController.Controller.FillSlots` | src/transport/native_controller.cpp:173-183 | connections are launched up to the limit and never while cancelling |
| `NativeController.Controller.Launch` | src/transport/native_controller.cpp:185-221 | one connection becomes active and no other changes; exactly a setup failure ends it at once, with its message, and starts cancelling exactly under fail-fast |
| `NativeController.Controller.Finish` | src/transport/native_controller.cpp:86-95 | the final result is stored and the connection counted off once; cancelling starts exactly if fail-fast meets a result that is not ok, has a nonzero code or an error, and then every other open connection is aborted with "fail-fast" |
| `NativeController.Controller.OnConnDone` | src/transport/native_controller.cpp:245-261 | the rest is cancelled exactly when fail-fast meets a result that is not ok, has a nonzero code or an error; an active connection is scheduled for retirement, completion is considered |
| `NativeController.Controller.Cancel` | src/transport/native_controller.cpp:223-243 | every connection not done fails with the reason and the kind it implies; nothing is launched any more |
| `NativeController.Controller.OnCancel` | src/transport/native_controller.cpp:223-243 | every connection not done fails with the reason, marked timed out, aborted or cancelled as the kind says or the well-known reason implies; nothing is launched any more |
| `NativeController.Controller.OnExit` | src/transport/native_controller.cpp:68-75 | the exit code, or -1 for an abnormal end, becomes the result unless the connection is done already; under fail-fast cancelling starts exactly if the end was abnormal or the code is not zero |
| `NativeController.Controller.OnError` | src/transport/native_controller.cpp:76-85 | the error becomes the result unless the connection is done already; under fail-fast cancelling always starts |
| `NativeController.Controller.Retire` | src/transport/native_controller.cpp:263-277 | the slot is freed, the next connection launched unless cancelling, completion considered |
| `NativeController.Controller.CompleteIfReady` | src/transport/native_controller.cpp:279-293 | completed exactly when nothing remains and nothing is active |
| `NativeController.Controller.Handle` | src/transport/native_controller.cpp:68-293 | each event has its effect, stated case by case; one that cannot happen does nothing |
| `NativeController.Controller.Run` | src/transport/native_controller.cpp:173-293 | over every sequence of events, each handled in turn: active never exceeds the limit and equals the unretired connections, results are final once done, the outcome is reported once |
| `RingBuffer.WrapIsModulo` | src/stream/bounded_buffer.cpp:16-17 | one conditional subtraction is the modulo the ring uses |
| `RingBuffer.BoundedBuffer.AppendUpTo` | src/stream/bounded_buffer.cpp:11-24 | exactly what fits is appended to the queue, across the wrap |
| `RingBuffer.BoundedBuffer.Append` | src/stream/bounded_buffer.cpp:32-70 | the accepted prefix, the first or the last `capacity` bytes of queue plus data, with exact drop counts |
| `RingBuffer.BoundedBuffer.Consume` | src/stream/bounded_buffer.cpp:72-83 | the front of the queue is returned and removed, run by run |
| `RingBuffer.BoundedBuffer.Peek` | src/stream/bounded_buffer.cpp:85-91 | a prefix of the queue, empty only when the queue is |
| `RingBuffer.BoundedBuffer.Drop` | src/stream/bounded_buffer.cpp:26-30 | the front is removed |
| `SpoolFile.SpoolBuffer.Append` | include/psx/stream/spool_buffer.hpp:36-65 | all of the bytes are stored or none counts; a failure poisons the file |
| `SpoolFile.SpoolBuffer.Read` | include/psx/stream/spool_buffer.hpp:72-85 | a prefix of the unread bytes is returned and consumed: all that was asked for, nothing from a poisoned file, or fewer if the read comes back short |
| `SpoolFile.SpoolBuffer.ReadAll` | include/psx/stream/spool_buffer.hpp:89-105 | everything stored, in order, or the front of it as far as it can be read back |
| `ByteStream.PipeStream.Write` | src/stream/stream.cpp:11-19 | accepted bytes join the end of the contents; under Spool all are accepted unless the spill has failed |
| `ByteStream.PipeStream.AppendSpool` | src/stream/stream.cpp:79-93 | ring then spill, in order; what the spill cannot take is not accepted |
| `ByteStream.PipeStream.FillFromSpool` | src/stream/stream.cpp:95-108 | refilling the ring leaves the contents as they are, and gives a spill read to its end back |
| `ByteStream.PipeStream.Read` | src/stream/stream.cpp:21-46 | the front of the contents is returned, all of it unless the spill cannot be read; behind a failed spill only the ring is read; draining the last byte after the writer's end closes the stream; a closed stream has delivered every accepted byte |
| `ByteStream.PipeStream.Drop` | src/stream/stream.cpp:53-77 | the front of the contents is discarded; draining the last byte after the writer's end closes the stream |
| `ByteStream.PipeStream.Peek` | src/stream/stream.cpp:48-51 | a prefix of the contents, which stay the same |
| `ByteStream.PipeStream.CloseRemote` | src/stream/stream.cpp:116-129 | the state machine's edge for the writer's end |
| `ByteStream.PipeStream.CloseLocal` | src/stream/stream.cpp:131-146 | the contents are discarded and the state advances |
| `ByteStream.PipeStream.Fail` | src/stream/stream.cpp:148-154 | a clean close is never downgraded |
| `Capture.CaptureChannel.Add` | src/process_manager.cpp:418-450 | after every chunk: all of the stream, its first or last `cap` bytes, or a prefix on disk and a suffix in memory with exactly the dropped bytes missing |
| `Capture.CaptureChannel.SpillOver` | src/process_manager.cpp:437-444 | evicted bytes extend the spilled prefix or the gap, never anything else |
| `Capture.CaptureChannel.Finish` | src/process_manager.cpp:827-830 | the reconstructed output under each policy, given how much of the spill can be read back; the drop count is exact if and only if the spill comes back whole |
| `Capture.CaptureAll` | src/transport/native_controller.cpp:28-63 | the same for any chunk sequence, any point of spill failure and any amount read back: the front of the spilled bytes and the kept suffix, the bytes between them counted if the spill comes back whole |
| `Capture.SpoolKeepsAll` | src/process_manager.cpp:418-450 | under Spool nothing is missing if the file can be written and read |
| `Capture.WholeIffReadBack` | src/process_manager.cpp:827-830 | with a spill that never fails to write, the output is the whole stream exactly if the spill comes back whole |
| `Capture.SomeByteGoesUncounted` | src/process_manager.cpp:827-830 | a concrete run: two bytes through a ring of one whose spill cannot be read back lose the first, with a drop count of zero |
| `Capture.WorkerCapture.Capture` | src/process_manager.cpp:418-450 | a chunk joins its own channel, the other is left alone, the shared count stays the sum |
| `Capture.CaptureWorker` | src/process_manager.cpp:418-450 | each of a worker's two outputs is captured as if it were alone, however they interleave, and the shared drop count is the sum |
| `Capture.Evict` | src/process_manager.cpp:437-444 | evicting the oldest kept bytes keeps output a prefix, a gap of the counted size and a suffix |
| `Quoting.QuotePosixArg` | src/ssh_auth.cpp:76-87 | the loop builds the single-quoted form |
| `Quoting.QuotePowerShellArg` | src/ssh_auth.cpp:90-101 | the loop builds the doubled-quote form |
| `Quoting.QuoteCmdArg` | src/ssh_auth.cpp:106-134 | bare or double-quoted, with the backslash rule |
| `Quoting.BareIffSimple` | src/ssh_auth.cpp:106-109 | a Windows argument is left bare exactly if it is not empty and has no space, tab, line feed, vertical tab or double quote |
| `Quoting.EscapeInside` | src/ssh_auth.cpp:111-131 | the nested loops build the escaped inside of a quoted argument |
| `Quoting.QuoteRemoteCommand` | src/ssh_auth.cpp:138-157 | the arguments' quoted forms joined by single spaces |
| `Quoting.PosixRoundTrip` | src/ssh_auth.cpp:76-87 | a POSIX shell splits the line back into exactly the argument list and meets no unquoted special character |
| `Quoting.PowerShellRoundTrip` | src/ssh_auth.cpp:90-101 | PowerShell's single-quote rule gives back the argument list exactly when no argument holds a typographic single quote (U+2018 to U+201B) |
| `Quoting.OneCurlyQuote` | src/ssh_auth.cpp:90-101 | one such quote leaves the command line unterminated |
| `Quoting.TwoCurlyQuotes` | src/ssh_auth.cpp:90-101 | of two such quotes in a row one is lost |
| `Quoting.CmdRoundTrip` | src/ssh_auth.cpp:106-157 | splitting by the general-argument rule of CommandLineToArgvW gives back the argument list |

## Left out

- Error texts: every protocol error has the same class and code, so a failed step is modelled as failed, without its text.
- Sockets, pollers, process spawning, signals and the reactor's own loop: they appear as arbitrary events and results.
- TLS, certificates and revocation: the backplane is an ordered, reliable byte channel.
- Command-line parsing, the REPL, logging, audit, sinks and rendering; YAML and INI parsing.
- The order in which the planner breaks ties between ready stages: only topological correctness is stated.
- Backoff delays and wall-clock deadlines: timers are events that may fire at any time.
- Exceptions from pipe creation or watch registration failures, which abandon a run.
- The teardown's walk over the retry queue: the model walks the list as it was when the walk began.
- DagRunner.Runner.OnChildExit: closes the consumer before it marks the exit; the two do not look at each other.
- DagRunner.Runner.DrainConsumer: the ring's contiguous run is abstracted to any prefix of the edge buffer.
- NodeStage.NodeStageRunner.OnFrame: holds the bound session as the value its object follows, not as a heap object.
- Quoting.CmdRoundTrip: does not model the different rule CommandLineToArgvW applies to the program name, nor the interpretation of metacharacters by cmd.exe itself.
- Quoting.PowerShellRoundTrip: does not model how PowerShell invokes the first word; arguments are characters, not their UTF-8 bytes.
- Graceful-versus-kill signal choice, process groups and the fencing of orphaned stages.
- The remote runners built on these parts (distributed, segmented and fan-in pipelines) and the ssh transport.
