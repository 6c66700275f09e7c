# A verified model of the EasySDK client

The repository is a WebSocket client for a JSON-RPC messaging server. Its engine (`src/client.rs`) lets any number
of `send`, `connect`, `disconnect` and `destroy` calls share one background worker through a semaphore, a bounded
queue, two atomics and a mutex. This project models that engine, the metadata rewriting and reply classification
it relies on (`src/protocol.rs`), its option limits and backoff (`src/types.rs`, `src/client.rs`), and the
incremental WebSocket auditor its acceptance suite counts SENDs with (`tests/acceptance/wire.py`), and proves what
they promise: no SEND is replayed or lost, every accepted SEND is resolved once, callers agree, outages end,
teardown is final, and a stream means the same however it is cut.

`dafny verify dfyconfig.toml` checks everything.

## How the model follows the source

**The worker** is modelled twice.

- `Worker.dfy` is a machine. A state is one run: where the code stands (`Pc`), the command queue and pending map
  (`Box`), the heartbeat (`Beat`), what `connect` callers read (`Face`), and histories (wire, events, answers
  processed, settlements). `LifeNext` has the steps of `run` and `supervise` (src/client.rs:297-377), with
  `establish` (src/client.rs:379-415) as a bounded wait that ends in any way the code allows; `SessNext` and
  `TalkNext` have the steps of `session` and `write` (src/client.rs:417-525). A step is a piece of code between two
  points where another thread can act. Cancellation is taken only where the code awaits inside the outer `select!`.
- `WorkerCode.dfy` is the same code as the source writes it: class `Supervisor` with the loops of `session`,
  `supervise` and `run` over mutable fields. What is awaited comes from a script. A ghost field follows along in the
  machine, so each method is proved to take only machine steps, and `Path` (`WorkerPath.dfy`) carries every
  invariant of the machine over to the code. `PathTheorems.dfy` shows that runs inside the client stay on such paths.

**The client** (`Client.dfy`) adds callers: `CallNext` is `send_with_options` (src/client.rs:217-271), `JoinNext` is
`connect` (src/client.rs:147-202), `CloseNext` is `disconnect` and `destroy` (src/client.rs:275-290), `RunNext` a
worker step with its effect on the atomics, one caller's reply channel and one permit. `Step` interleaves all of them
with the clock; `Reached` (`Reachable.dfy`) says that a state lies on some finite interleaving. The second
`is_connected` test and `try_send` are separate steps, so a command can land after the worker drained its queue.
Request IDs are fresh names; the clock only moves forward; the peer may send any frame.

**The decoder** (`Dispatch.dfy`, `Protocol.dfy`, `Aliases.dfy`) works on parsed JSON trees; JSON text and Base64 are
functions supplied from outside. `Dispatch.Interpret` turns a frame into what the session acts on
(src/client.rs:483-521). `Readings.dfy` says member by member, by its key in the raw tree, what a reply, a message or an
event holds, and `Inbounds.dfy` says which frame means what; the decoders are proved to accept exactly that.

**The auditor** (`Wire.dfy`) is a class with the source's buffer and loop, proved against a one-shot parse of the
whole stream; `json.loads` and the method test are one function from a body to its classification.

Each invariant is one small file (`Worker*.dfy`, `Client*.dfy`); the theorems over every interleaving are in
`TrafficTheorems.dfy`, `TimeoutTheorems.dfy`, `LifecycleTheorems.dfy`, `SessionTheorems.dfy` and `PathTheorems.dfy`.
`ExecutionTheorems.dfy`, `CallerTheorems.dfy` and `OutageTheorems.dfy` speak of two moments of one interleaving, by the
actions taken and the clock at them: how long a wait lasted, in which session a SEND was written, what a caller was told.
`Witnesses.dfy` holds interleavings that show two surprises to be reachable.

## Where promises and code differ

- src/types.rs:286 calls `DisconnectReason` one terminal transition per session or run. A run can report two:
  `Witnesses.ManualAfterLossHappens` is an interleaving that loses its session and is cancelled during the backoff. The
  exact condition is `SessionTheorems.ManualIsLast`: Manual follows a loss not made good iff a retry had been announced;
  seen from the cancellation (`SessionTheorems.CancelHitsOutage`), iff it hits an outage.
- A reply is an accepted SEND when its reason code is 1, unless `result` is a positional array: the reason lookup sees
  only objects, but serde decodes arrays. `Protocol.AcceptedSendIff` and `Protocol.AcceptedConnectIff` give the exact
  condition, `Protocol.PositionalFailureAccepted` and `Protocol.PositionalRejectionConnects` an input each.
- src/protocol.rs:54-55 promises normalised metadata. A message sent by position keeps its header as it stands, so a
  flag spelled in snake_case only is lost. `Dispatch.RecvReadsDirectlyIff` says exactly when, for every JSON tree, and
  `Dispatch.PositionalFlagLost` gives an input.
- RFC 6455 (section 5.2) wants the shortest length encoding. The auditor also accepts longer ones:
  `WireFrames.BeyondStandardIff` says from the header bytes which, and `WireFrames.OverlongAccepted` that it does.
- The backoff is `delay × 2^(attempt − 1)` capped at the maximum exactly when `delay × (2^32 − 1)` reaches the maximum
  or the attempt is at most 32 (`Backoff.BaseIsIdealIff`); a one-nanosecond delay shows the saturation
  (`Backoff.SaturationIsVisible`), a delay of a millisecond or more never does.
- A caller's deadline does not free its permit (src/client.rs:68). `TrafficTheorems.PermitUntilReply` says exactly when a
  request holds one, and `Witnesses.TimedOutCallHoldsPermit` reaches a state whose caller has returned Timeout while its
  permit is still taken. So admission is stated as conservation, not as a bound on waiting.

## Model

| member | source | states |
|---|---|---|
| TrafficTheorems.GenerationFence | src/client.rs:227-266 | in every reachable state a SEND on a wire is on the socket of the generation its caller read, in the run it was enqueued to |
| TrafficTheorems.NoReplay | src/client.rs:333-346 | over all runs and reconnects each request is on the combined wire at most once, and wire order is a subsequence of acceptance order |
| TrafficTheorems.TracesAppendOnly | src/client.rs:472-481 | the combined traces are in real time: a step appends at most one command to each and rewrites nothing |
| TrafficTheorems.ExactlyOneResolution | src/client.rs:297-317 | an enqueued request is in exactly one of queue, hand, pending map and settled list, is settled at most once, and is settled iff its caller's reply is decided |
| TrafficTheorems.FinishedRunSettledAll | src/client.rs:313-316 | a finished run has an empty, closed queue and no pending entry, and settled exactly what it accepted |
| TrafficTheorems.ReplyFinal | src/client.rs:443-454 | once decided, a caller's reply never changes, whatever step follows |
| TrafficTheorems.AdmissionConserved | src/client.rs:231-265 | free permits, callers holding one, queued, in hand and pending add up to `max_in_flight` in every reachable state |
| TrafficTheorems.PermitUntilReply | src/client.rs:68-75 | an enqueued request holds its permit iff its reply is not decided yet, whatever its caller has returned |
| Witnesses.TimedOutCallHoldsPermit | src/client.rs:267-269 | for all valid options a reachable state with a caller that returned Timeout, its request still holding a permit and one permit missing |
| TrafficTheorems.NeverFull | src/client.rs:253-265 | the queue has room whenever an admitted caller reaches `try_send` |
| TrafficTheorems.QuiescentPermitsFree | src/client.rs:62-75 | when callers are done and workers finished, all permits are free again |
| TrafficTheorems.AnswerIsOwn | src/client.rs:486-495 | an answered request got the first answer with its own ID processed while it was pending; any other settlement means none was processed |
| TrafficTheorems.OkMeansAcknowledged | src/client.rs:491-495 | a caller's Ok came from the first answer to its own request, and a SendAck event of that request's own reported it |
| TrafficTheorems.SendAcksMirrorAnswers | src/client.rs:491-495 | per run the SendAck events are in order the results requests were settled with, plus at most one about to be handed over, so one event per accepted request |
| TrafficTheorems.OwnSendAckUnique | src/client.rs:493-494 | no two settlements share a SendAck event |
| TrafficTheorems.PlacedOnce | src/client.rs:62-75 | every accepted request is counted once among the four places |
| ExecutionTheorems.TimeoutTakesItsTime | src/client.rs:237-269 | a caller that is told Timeout has waited at least `request_timeout` on the clock since the step that prepared its SEND |
| ExecutionTheorems.TimeoutOfferedIff | src/client.rs:267-269 | a waiting caller can give up exactly when that much time has passed since that step |
| ExecutionTheorems.SettledLateTakesItsTime | src/client.rs:445-478 | the worker settles no SEND for its deadline before that much time has passed |
| ExecutionTheorems.FencedByReading | src/client.rs:230-475 | a SEND is written only on the socket whose number `generation` showed when its caller read it |
| CallerTheorems.SentInItsSession | src/client.rs:230-475 | no session begins between the step in which a caller reads the generation and the step that writes its SEND |
| CallerTheorems.RefusedIff | src/client.rs:224-265 | each error that `send` returns before the SEND is enqueued is returned exactly in its own situation: destroyed, not connected, all permits used, bad input, too large, or the run closed |
| CallerTheorems.ReturnedAsSettled | src/client.rs:267-270 | the caller of an enqueued SEND returns what its settlement says, fate by fate, or Timeout at its own deadline |
| ExecutionTheorems.BackoffHonoured | src/client.rs:325-327 | a retry dials no earlier than the delay announced by its Reconnecting event |
| ExecutionTheorems.ConnectTimeoutHonoured | src/client.rs:379-415 | a dial times out no earlier than `connect_timeout` after the step that began it |
| ExecutionTheorems.PongTimeoutHonoured | src/client.rs:463-469 | a session is lost to its heartbeat no earlier than `pong_timeout` after that ping was begun |
| ExecutionTheorems.PingIntervalHonoured | src/client.rs:440-512 | a ping is begun no earlier than `ping_interval` after the session began or the last answer to a ping was heard |
| ExecutionTheorems.CancelledSince | src/client.rs:275-306 | a run that is being cancelled, or has reported Manual, was cancelled by an earlier `disconnect` or `destroy` |
| TimeoutTheorems.EnqueueBehindSession | src/client.rs:248-253 | a caller about to enqueue has a run in the slot that has had a session, so the empty-slot fallback is dead |
| TimeoutTheorems.NoSessionNoSend | src/client.rs:363-369 | a run that never had a session never held a SEND |
| TimeoutTheorems.StepKeepsTimely | src/client.rs:443-454 | every step of the client keeps settlements due, connected runs established and Timeout results late |
| LifecycleTheorems.SingleLiveWorker | src/client.rs:147-180 | at most one run is unfinished, and it is the one in the slot |
| LifecycleTheorems.ConnectedMeansSession | src/client.rs:333-341 | `connected` implies the last worker is in or leaving its session; a session implies `connected` and the current generation |
| LifecycleTheorems.EmptySlotMeansQuiet | src/client.rs:275-284 | when `disconnect` has cleared the slot no worker lives and `connected` is false |
| LifecycleTheorems.SendersHeld | src/client.rs:473-473 | a live worker never finds its command channel without senders |
| LifecycleTheorems.DestroyIsFinal | src/client.rs:287-290 | after a completed `destroy` no later state has a live worker or is connected |
| LifecycleTheorems.DestroyedRefuses | src/client.rs:149-151 | after a completed `destroy`, `send` and `connect` return Destroyed and no call can start a run |
| LifecycleTheorems.FirstAttemptAgrees | src/client.rs:181-193 | all callers that started or joined a first attempt return the same value, the run's first result |
| CallerTheorems.ConnectTells | src/client.rs:182-201 | by events: who joins a run before it has connected is told its first authentication or the error its last event reports; who joins later is told the latest authentication of the moment, or that error |
| LifecycleTheorems.LateCallerToldNow | src/client.rs:194-201 | a caller past the first attempt returns Ok only while the run is ready, with its latest Connect, and Err only with the error of its last event |
| LifecycleTheorems.FirstCallerToldFirst | src/client.rs:186-193 | a caller of the first attempt returns the run's first Connect, or its error if there was none |
| CallerTheorems.StartsIffNoneLives | src/client.rs:147-180 | `connect` starts an untouched run exactly when no worker lives and a runtime is there, and otherwise joins the live one or fails |
| CallerTheorems.DestroyedOnlyByDestroy | src/client.rs:286-290 | a client is destroyed only after a call of `destroy`; a `disconnect` leaves it usable |
| CallerTheorems.ClosingCancels | src/client.rs:275-284 | a `disconnect` that waits for the worker holds the lock and has cancelled the worker, which can take the cancellation at every await |
| CallerTheorems.DisconnectLeavesNothing | src/client.rs:275-284 | a `disconnect` or `destroy` that completes leaves no live worker, no session, and slot and lock free |
| LifecycleTheorems.EveryCallerAnswered | src/client.rs:186-201 | a waiting caller is due to wake as soon as the first result is out or, if it came later, the run is ready or has failed, so when it is finished; the sender-dropped fallback cannot be taken |
| LifecycleTheorems.FirstResultOnce | src/client.rs:309-312 | no step changes a first result once written, and every finished run has one and a failed status |
| ClientJoins.FallbackUnreachable | src/client.rs:191-200 | the Disconnected fallback of `connect` is unreachable |
| SessionTheorems.RunSpeaksGrammar | src/client.rs:320-377 | every run's events are a sentence of the grammar, and a finished run's last event reports the error its callers get |
| SessionTheorems.BetweenConnects | src/client.rs:347-375 | between two Connects of a run: one loss of session with its error, then retries 1 to k in order, each but the last failing with Timeout, Transport or MessageTooLarge |
| SessionTheorems.TrafficWithinSession | src/client.rs:483-516 | Message, SendAck and CustomEvent occur only between a Connect and the Disconnect of its session |
| SessionTheorems.ExhaustedMeansAllFailed | src/client.rs:371-374 | an event is ReconnectExhausted iff the events before it are a loss, its error and the allowed number of retries that failed with Timeout, Transport or MessageTooLarge; it ends the run |
| SessionTheorems.RejectedRedialIsLast | src/client.rs:363-368 | a redial that fails with Server or Protocol is the last event of its run |
| SessionTheorems.FailedRedialGoesOn | src/client.rs:363-375 | a redial that fails with Timeout, Transport or MessageTooLarge is never the run's end nor its error: the next retry follows, or ReconnectExhausted after the last |
| SessionTheorems.ManualIsLast | src/client.rs:298-306 | `Disconnect(Manual)` is the last event of its run, and follows a loss not made good iff the event before it announced a retry |
| SessionTheorems.CancelHitsOutage | src/client.rs:298-327 | when cancellation takes effect, the run has reported a loss not made good iff it is in a backoff or a dial after one |
| Witnesses.ManualAfterLossHappens | src/client.rs:298-358 | whenever retries are allowed, an interleaving whose run reports a transport loss and then `Disconnect(Manual)` |
| SessionTheorems.FiniteOutage | src/client.rs:321-376 | from loss of session to the next: at most `max_reconnect_attempts` dials, in at most that many times the longest delay plus dial, plus the time the scheduler held the worker back |
| OutageTheorems.PunctualOutage | src/client.rs:321-376 | when no wait is overslept, from the step that ends a session on: at most `max_reconnect_attempts` dials, and at most that many times the longest delay plus dial on the clock |
| SessionTheorems.WaitPoint | src/client.rs:440-461 | at a wait point nothing pending was expired at the sweep's clock reading, the timer is the earliest deadline of all, and every pending request is on this socket's wire |
| SessionTheorems.HeartbeatBlame | src/client.rs:462-470 | HeartbeatTimeout is reported only for a written ping whose deadline passed with no matching reply or pong processed |
| SessionTheorems.HeartbeatsSpaced | src/client.rs:462-490 | between two heartbeats on one socket a pong or the earlier one's reply was processed |
| SessionTheorems.OwnWritesFit | src/client.rs:240-246 | a SEND or heartbeat being written always fits the size limit |
| SessionTheorems.AcksMirrorMessages | src/client.rs:499-504 | per session, the RECVACKs written are in order the receipts of the Message events, except that the last may be missing |
| SessionTheorems.AcksRepeatMessages | src/client.rs:499-504 | the nth RECVACK of a session carries the header, ID and sequence number of its nth Message event, and at most the last is missing |
| SessionTheorems.NeverStuck | src/client.rs:320-377 | wherever the worker does not await the outside, a next step exists |
| SessionTheorems.LeastDeadline | src/client.rs:455-460 | the least of finitely many deadlines and the heartbeat's exists and is one of them |
| Grammar.PhaseMeaning | src/client.rs:320-377 | what the automaton's phase says about the whole history before it |
| Grammar.ConnectHistory | src/client.rs:329-375 | in a sentence, a Connect after the first event is preceded by a complete outage |
| Grammar.ExhaustedIff | src/client.rs:371-374 | in a sentence, ReconnectExhausted stands exactly after the allowed number of retries of an outage, failed with Timeout, Transport or MessageTooLarge, and last |
| Grammar.RedialOutcome | src/client.rs:363-375 | in a sentence, what follows a failed redial, by its error |
| Grammar.ManualAfterLossIff | src/client.rs:298-306 | in a sentence, Manual follows a loss without a later Connect iff a Reconnecting comes right before it |
| Reachable.StepKeepsInv | src/client.rs:147-377 | every step of every caller and run keeps the invariant of the whole client |
| Reachable.ExecutionOk | src/client.rs:147-377 | every state of every finite interleaving satisfies the invariant |
| ClientGate.StepKeepsGate | src/client.rs:147-290 | mutual exclusion, the slot, both atomics and the destroyed fence are kept by every step |
| ClientCalls.StepKeepsTraffic | src/client.rs:217-271 | run invariants, caller records, replies and permits are kept by every step |
| ClientJoins.StepKeepsJoins | src/client.rs:181-201 | every step keeps: callers of a first attempt hold its first result, a late caller of a failed run its error, and no sleeper has missed a change |
| WorkerInvariant.StepKeepsRun | src/client.rs:297-525 | every step of a worker keeps all its invariants: places, order, fence, answers, deadlines, heartbeat, acknowledgements, grammar, published results, outage bounds |
| WorkerPlaces.MoveKeepsPlaces | src/client.rs:443-495 | no move of a command between queue, hand, pending map and outside duplicates or loses one |
| WorkerOrder.StepKeepsOrder | src/client.rs:472-481 | SENDs are written in the order in which they were taken from the queue |
| WorkerOrder.SubsequenceDistinct | src/client.rs:472-481 | a subsequence of distinct commands has no duplicate, which turns order into no replay |
| WorkerAnswers.StepKeepsAnswers | src/client.rs:486-495 | each pending request has been unanswered since it became pending, and each settled one is explained by the answers processed |
| WorkerBeat.StepKeepsBeat | src/client.rs:462-490 | the outstanding ping is on the wire and unanswered, none is outstanding while one is written, and a Timeout loss has an overdue ping |
| WorkerPings.StepKeepsPingTrace | src/client.rs:465-490 | every earlier ping of a socket was answered before the next was written |
| WorkerReplies.StepKeepsReplies | src/client.rs:491-494 | SendAck events and settlements with a result stay in step |
| WorkerAcks.StepKeepsAcks | src/client.rs:499-504 | deliveries and acknowledgements stay in step, per socket |
| WorkerConnects.StepKeepsConnects | src/client.rs:330-339 | the first result stays the first Connect, and Ready the latest |
| WorkerDeadlines.StepKeepsDeadlines | src/client.rs:445-476 | pending entries keep their own command's deadline, nothing is settled for a deadline before it, and an established run cannot end with Timeout |
| WorkerLog.StepKeepsLog | src/client.rs:297-377 | the worker's position always fits the phase of the events it emitted |
| WorkerOutage.OutageBounded | src/client.rs:321-376 | the bound of one outage in dials and time |
| PathTheorems.EveryRunOnPath | src/client.rs:147-377 | the run of every reachable client state is one that the worker's own steps, arrivals, cancellation and time lead to, so what is proved of paths holds inside the client |
| PathTheorems.StepOnPath | src/client.rs:147-377 | every step of the client keeps every run on such a path |
| WorkerPath.PathOk | src/client.rs:297-525 | along every path of worker steps, arrivals, cancellation and time all run invariants hold |
| WorkerCode.Supervisor.Sweep | src/client.rs:443-460 | the sweep keeps exactly the requests whose caller waits and whose deadline is ahead, settles each other one once with the right outcome, and returns the earliest deadline left |
| WorkerCode.Supervisor.Retain | src/client.rs:444-444 | the retain loop removes exactly the requests whose caller left |
| WorkerCode.Supervisor.Expire | src/client.rs:445-454 | the expiry loop removes and answers exactly the expired requests |
| WorkerCode.Supervisor.Timer | src/client.rs:455-460 | the minimum loop returns the earliest of the pending deadlines and the heartbeat deadline |
| WorkerCode.Supervisor.Fired | src/client.rs:462-470 | the timer branch ends the session with Timeout iff a ping is overdue, and otherwise at most writes one ping and records its deadline |
| WorkerCode.Supervisor.Admit | src/client.rs:472-479 | a dequeued command is settled Discarded, Stale or Late in that order of checks, or becomes pending under its own deadline |
| WorkerCode.Supervisor.Command | src/client.rs:472-481 | the command branch: exactly one settlement and no write, or one pending entry and at most its own frame on the wire |
| WorkerCode.Supervisor.Correlate | src/client.rs:486-495 | a reply ends or renews the heartbeat if it is the ping's, else answers the pending request with its ID and no other, emitting SendAck iff Ok |
| WorkerCode.Supervisor.Message | src/client.rs:482-522 | the socket branch for every frame, by the JSON object in it: a pong renews the heartbeat, a disconnect ends the session with its code, a message is reported and acknowledged, an event reported, a reply correlated, a garbled frame reported and nothing else |
| WorkerCode.Supervisor.Serve | src/client.rs:438-525 | the session loop ends with the error it reports, by cancellation, or still waiting |
| WorkerCode.Supervisor.Drain | src/client.rs:344-346 | the drain loop empties the queue and settles its commands in order, each once, as refused by the session's or the run's end |
| WorkerCode.Supervisor.DropPending | src/client.rs:438-441 | leaving a session drops every pending request, each once, and leaves none |
| WorkerCode.Supervisor.Lose | src/client.rs:341-361 | a lost session: not connected, status Connecting, queue drained, and the loss reported with the reason its error calls for |
| WorkerCode.Supervisor.Supervise | src/client.rs:320-377 | the supervising loop takes only machine steps and ends where its outcome says; once established only with ReconnectExhausted, Server or Protocol |
| WorkerCode.Supervisor.Run | src/client.rs:297-317 | a finished run leaves nothing connected, queued or pending, has settled all it accepted once, has a first result and a failed status that agree, and a complete event sentence |
| WorkerCode.Supervisor.CodeOk | src/client.rs:297-525 | wherever the code stands, all run invariants hold of its fields |
| Backoff.BaseIsIdealIff | src/client.rs:528-532 | the saturating base equals the capped power of two iff the attempt is within 32 bits or the scaled delay reaches the cap |
| Backoff.MillisecondDelaysAreExact | src/client.rs:528-532 | for validated options with a delay of at least a millisecond the base is exact |
| Backoff.SaturationIsVisible | src/client.rs:528-532 | validated options and an attempt for which the base is not exact |
| Backoff.BaseMonotone | src/client.rs:529-532 | the base never falls from one attempt to the next |
| Backoff.DelayBounded | src/client.rs:533-536 | for every jitter the delay lies between the base and the lesser of the cap and 5/4 of the base |
| Backoff.DelayJitter | src/client.rs:533-536 | the delay is the base plus `random` modulo one more than the whole milliseconds in a quarter of it, capped: each jitter from none to that quarter is reached |
| Backoff.TotalDelayBounded | src/client.rs:528-537 | k delays sum to at most 5/4 of delay times 2^k − 1 |
| Aliases.MergeAllResolves | src/protocol.rs:58-77 | the alias loop computes the declarative resolution, for every object and every proper table |
| Aliases.ResolvedUnique | src/protocol.rs:58-77 | the declarative resolution determines the object and reads the table as a set |
| Aliases.TableProper | src/protocol.rs:58-73 | no spelling of the source's table interferes with another |
| Protocol.Normalize | src/protocol.rs:56-87 | the loop, the ID rewrite and the recursion into the header compute the normal form |
| Protocol.NormalIsDeclarative | src/protocol.rs:54-87 | on every tree the result is the declarative form: camelCase wins, numeric IDs become text, nested headers likewise, the rest unchanged |
| Protocol.NormalFormUnique | src/protocol.rs:54-87 | the declarative form has one solution |
| Protocol.NormalOrderIrrelevant | src/protocol.rs:58-73 | the order of the alias list does not matter, at any depth |
| Protocol.NormalLeavesNoAlias | src/protocol.rs:56-87 | no snake_case alias is left at the top or along the header chain |
| Protocol.NormalIdempotent | src/protocol.rs:56-87 | normalising twice is normalising once |
| Protocol.ContentUntouched | src/protocol.rs:54-55 | `payload` and `data` and everything below them are unchanged |
| Protocol.ReasonLookupAgrees | src/protocol.rs:96-99 | on objects the raw reason lookup and the decoder see the same value, whichever spellings are present |
| Protocol.AcceptedSendIff | src/protocol.rs:93-117 | an accepted SEND reply has reason 1 iff it is not a positional array saying otherwise |
| Protocol.AcceptedConnectIff | src/protocol.rs:93-117 | the same for authentication replies |
| Protocol.PositionalFailureAccepted | src/protocol.rs:93-117 | an input with reason 7 that is reported as accepted |
| Protocol.PositionalRejectionConnects | src/protocol.rs:93-117 | an input with reason 7 that authenticates |
| Protocol.RejectedSendNeverDecodes | src/protocol.rs:93-108 | an object that would decode to another reason is rejected with exactly that code |
| Readings.IdIff | src/protocol.rs:78-82 | a message ID is read exactly from text or from an unsigned number as its own numeral, digits only and without leading zero |
| Readings.SendDecodesIff | src/protocol.rs:88-91 | an object decodes to a SEND result exactly when its keys, under either spelling, hold its members |
| Readings.ConnectDecodesIff | src/protocol.rs:88-91 | the same for authentication results, absent members having their defaults |
| Readings.SuccessIff | src/protocol.rs:93-108 | a reply succeeds exactly with a result, no error and no reason but 1, and yields that result |
| Readings.RejectionIff | src/protocol.rs:93-117 | a reply is rejected with code n exactly when its only verdict, an error's `code` or a result's reason, is n |
| Readings.AuthenticatedIff | src/protocol.rs:88-117 | an authentication reply yields a result exactly when it is accepted and holds it, by keys or by position |
| Readings.RecvIff | src/protocol.rs:119-132 | `params` is received as a message exactly when each of its members says so, by key or by position, its content unpacked |
| Readings.EventIff | src/protocol.rs:134-148 | `params` is received as a custom event exactly when its keys say so; a list never is |
| Dispatch.RecvReadsDirectly | src/protocol.rs:119-120 | rewriting then decoding a message object equals reading each member directly under either spelling, header flags included |
| Dispatch.RecvReadsDirectlyIff | src/protocol.rs:54-120 | for every JSON tree, decoding a message equals reading it directly under either spelling, except exactly for readable positional messages whose header has a flag in snake_case only with a value other than false |
| Dispatch.HeaderAgreesIff | src/protocol.rs:84-86 | a header that is not rewritten reads as intended iff it is unreadable or hides no flag |
| Dispatch.PositionalFlagLost | src/protocol.rs:84-86 | a positional message that asks not to be persisted and is received as if it had not |
| Dispatch.EventReadsDirectly | src/protocol.rs:134-138 | the same for custom events |
| Inbounds.ReplyIff | src/client.rs:486-486 | a text is a reply with an ID exactly when `id` is that text, whatever its method |
| Inbounds.VerdictsIff | src/client.rs:487-494 | what a reply says to a heartbeat and to a SEND, for every reply: success with its result, or rejection with its code |
| Inbounds.PongIff | src/client.rs:512-512 | a text is a pong exactly when it has no text ID and its method is "pong" |
| Inbounds.ByeIff | src/client.rs:511-511 | a text ends the session exactly when its method is "disconnect", with the code under either spelling of its reason, else 0 |
| Inbounds.DeliveryIff | src/client.rs:497-506 | a text delivers a message exactly when its method is "recv" and its params hold that message |
| Inbounds.NoticeIff | src/client.rs:507-510 | a text delivers a custom event exactly when its method is "event" and its params hold that event |
| Inbounds.UnknownIff | src/client.rs:513-513 | a notification is passed over exactly when its method is another text |
| Inbounds.MalformedIff | src/client.rs:485-519 | a text is malformed exactly when it is no JSON-RPC 2.0 object, has neither text ID nor text method, or announces content that cannot be read |
| Inbounds.FrameMeaning | src/client.rs:483-521 | every frame of any kind, by what it is |
| Wire.FindBlankLine | tests/acceptance/wire.py:20-20 | the first blank line at or after a position, or none |
| Wire.FirstFrame | tests/acceptance/wire.py:27-48 | a complete frame takes at least six bytes and lies in the buffer; an incomplete one is at most 60013 bytes |
| Wire.SendCounter.constructor | tests/acceptance/wire.py:10-13 | an auditor starts with nothing buffered, not upgraded, no SEND counted |
| Wire.SendCounter.NextFrame | tests/acceptance/wire.py:28-48 | header checks, bounds and unmasking read the first frame of the buffer as the specification does |
| Wire.SendCounter.AuditFrames | tests/acceptance/wire.py:27-55 | the frame loop ends, and leaves what the one-shot parse of the buffer leaves, with the same count and raise |
| Wire.SendCounter.Feed | tests/acceptance/wire.py:15-55 | one call moves the auditor as the specification does, the guard included |
| WireTheorems.ChunkingDoesNotMatter | tests/acceptance/wire.py:15-55 | if the guard never fires, feeding any split of a stream equals parsing it at once: flag, leftover, count and raise |
| WireTheorems.RaisesIff | tests/acceptance/wire.py:15-55 | a chunked run raises iff the guard fires or the one-shot parse raises |
| WireTheorems.LeftoverBound | tests/acceptance/wire.py:27-49 | after a call that does not raise on an upgraded stream at most 60013 bytes remain |
| WireTheorems.SmallChunksNeverGuarded | tests/acceptance/wire.py:16-18 | once upgraded, chunks of up to 5523 bytes never trip the guard |
| WireTheorems.LeftoverBoundTight | tests/acceptance/wire.py:27-49 | a buffer of exactly 60013 bytes that waits for more |
| WireFrames.FrameRoundTrip | tests/acceptance/test_wire.py:6-13 | a frame encoded by a sender that turns its mask by one octet per byte is read back with its opcode, extent and body, whatever follows it |
| WireFrames.StreamRoundTrip | tests/acceptance/test_wire.py:24-29 | an upgrade request and any sendable frames, fed in any guard-safe chunks, leave an empty buffer and count exactly the send bodies |
| WireFrames.FrameReadBack | tests/acceptance/wire.py:27-49 | what the auditor reads as a frame is the encoding of a sendable frame |
| WireFrames.CloakedIsMasked | tests/acceptance/wire.py:47-48 | the sender's turning mask and the auditor's indexed one agree on every body |
| WireFrames.MaskedHello | tests/acceptance/wire.py:47-48 | the masked "Hello" of section 5.7 of RFC 6455 is unmasked |
| WireFrames.FrameIff | tests/acceptance/wire.py:27-49 | a frame is read exactly where the encoding of a sendable frame begins |
| WireFrames.BadNeverCompletes | tests/acceptance/wire.py:29-45 | bytes that the auditor refuses cannot be continued to a frame |
| WireFrames.WaitCompletes | tests/acceptance/wire.py:34-46 | bytes with a readable length for which it waits can be |
| WireFrames.AcceptedStreamIsEncoded | tests/acceptance/wire.py:15-55 | every upgraded stream that does not raise, in whatever chunks, is an upgrade request, encoded sendable frames and the leftover, with the count of those frames |
| WireFrames.AcceptedIsEncoded | tests/acceptance/wire.py:27-55 | the same for the bytes after the upgrade |
| WireFrames.BeyondStandardIff | tests/acceptance/wire.py:34-41 | a frame that is read has the shortest length encoding iff its header bytes are not overlong |
| WireFrames.OverlongAccepted | tests/acceptance/wire.py:36-41 | every short body with a two-byte length is such a frame and is read |

## Left out

- The calls of `Client` are steps on values (`Client.dfy`), not methods of a class: between any two of their atomic
  operations another caller or the worker may act, which a sequential method cannot express. Sharing of one `Inner` by
  cloned handles is therefore not modelled as aliasing, but as one state.
- `Protocol.Normalize` and its loop `Protocol.MergeAliases` return the rewritten tree instead of writing through `&mut`; a JSON tree has no aliases.
- `WorkerCode.Supervisor`: the outside comes from a script, and a pick that cannot happen ends the script; the wire,
  events and replies are ghost histories. `biased` polling and dropped futures appear as an outcome of each wait.
- Dropping the last `Client` handle (src/client.rs:89-96), which cancels like `disconnect` without waiting.
- Handshake, TLS, URL and credential checks (src/client.rs:99-135, 540): foreign libraries; `establish` is a timed wait
  that ends with a decoded result or one of its errors.
- JSON text, Base64 and UUID text: `Codec` is arbitrary and IDs are fresh by assumption; sizes are supplied.
- The SEND parameters built by `protocol::send`, with their input checks, are one outcome of the step that encodes.
- Event subscribers and broadcast lag: events are a sequence per run.
- `generation` is unbounded; wrap-around of a 64-bit counter of reconnects is not modelled.
- Ordering of atomics: each load and store is a step of a sequentially consistent memory.
- Settling a request, waking its caller and releasing its permit are one step.
- SessionTheorems.FiniteOutage: counts the time during which a worker could run but was not scheduled separately,
  because no bound on it follows from this code.
- Liveness: `NeverStuck` says that a step exists, not that a scheduler takes it.
- `SendCounter` after a raise: its buffer is not described, since the audit is over.
- The example programs, test servers and cluster harnesses: process control and wall-clock polling.
