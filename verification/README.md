# Connection driver protocol

A model of the connection driver of a WebSocket client: a reader task, a writer
task, at most one close watchdog, and any number of concurrent `close`,
`abort`, send and receive calls, all working on a few shared cells and two
bounded lanes. It comes with the limits the driver relies on and with the
Python facade's retained receive, alone and on top of the driver.

`Machine.dfy` gives every task and every call a program counter. Each single
access to the state cell, the signal cell, the `closing` flag, the task counter
or a lane is one atomic step, and any interleaving of steps is a run. A task
abort is honoured only where the task is parked at an await; `begin_close` has
no await and cannot be cancelled halfway. The wire may yield anything, writes
may succeed, fail or block, and callers may be cancelled at each of their awaits.
The clock is discrete and cannot pass a due timer. Dropping the last handle
runs `abort` and then drops the driver's ends of the two lanes.

| file | what it holds |
|---|---|
| Errors, Config, Sums | reported values, configuration limits, sums over sequences |
| Cells | the state and signal cells with their publishers, the task counter and its guards, as values and as classes |
| Lanes | the outbound and inbound lanes (byte budget and item queue), as values and as classes |
| Machine | the step relation: reader (src/driver.rs:438-573), writer (575-692), watchdog (380-387, 840-848), calls (246-388) |
| Driver | `begin_close`, `abort` and `finish_reader_failure` in place on the cells |
| Effects | what each program point does and where it leads; all invariants are proved from these summaries |
| Assertions, Counting, Timers, Outflow, SendOrder, Inflow, Settling | the inductive invariants |
| Runs, Outcomes, Traffic | what the invariants say about every finite run |
| Writes, Endings, Causes, Answers, Flushing | what each event of the wire and each check leads to, and where each answer comes from, over every finite run |
| Fairness, Draining, Liveness, Handshake, Delivery, Responses, Sending | progress on every fair endless run |
| Enabled, Schedules, Receptive | whoever is ready has a step, every finite run has a fair continuation, and the environment is left free |
| Facade | the retained receive of fogws/client.py |
| EndToEnd | facade and driver run together |

The main statements tie events outside the driver (items read off the wire,
results of writes, calls and cancellations) to what the calls answer, in both
directions: `Writes.AnsweredIfWritten` for sends, `Endings.LastItemDecides` for
the end of the connection, `Causes.EveryOutcomeHasACause` for every final value,
`Answers` for refusals and cancellations.

The invariants are proved step by step: each program counter has an assertion
about the shared cells, each assertion is stable under what the other tasks can
do to the cells, and each step arrives at a point whose assertion holds. The
endless runs of `Fairness.dfy` assume weak fairness: a task or call that can go
on eventually does, where a reader with a message in hand can go on once its
bytes are free, once the queue has room, or once it has been told to stop. They
also assume that a requested abort is eventually honoured. Reading and writing
may block for ever, and a consumer need not come back. `Schedules.dfy` shows that
these assumptions exclude no finite run: each one is the beginning of a fair
endless run. A few theorems assume more, and say so in their contracts: that a
write or flush ends (`Handshake.dfy`, `Responses.LocalCloseGoesOut`,
`Sending.dfy`), that the clock does not stop (`Liveness.CloseReturnsEventually`),
that somebody keeps consuming or keeps calling receive (`Delivery.dfy`), that
pings cease (`Sending.dfy`).

Three facts about the code worth knowing when reading the statements: a send is
answered Ok before its bytes are returned (src/driver.rs:630-643), the check
before admission reports a local normal close while the state is Closing
(src/driver.rs:393), and a Closed state does not imply `closing`, because
failures of the reader and the writer do not set the flag.

docs/client.md:65-66 places the one message beyond the inbound byte budget at
the wait for queue capacity; in the code that message waits for its bytes
(src/driver.rs:545-554) and holds its permit while it waits for capacity. The
model follows the code.

The facade keeps its native receive when a waiting call is cancelled, but not
when another exception is thrown into the suspended call, as happens when its
coroutine is closed: `except BaseException` (fogws/client.py:65-67) forgets the
future while it is outstanding, its message reaches nobody, and the next call
starts a second native receive. `Facade.ClosedCallLosesItsReceive` is that input,
and `Facade.LosslessExactly` and `Facade.OneNativeReceive` say exactly when
nothing is lost and when one native receive is outstanding at most.

## Model

| member | source | states |
|---|---|---|
| Errors.ClassifyClose | src/driver.rs:718-737 | a peer close is clean exactly for code 1000, code 1001 or no code, and its metadata survives (sections 7.1.5 and 7.4.1 of RFC 6455) |
| Config.New | src/config.rs:27-76 | a configuration is accepted exactly when it meets every limit the driver relies on, and is passed through unchanged; a refusal is always a resource-limit error |
| Config.AcceptedConfigFitsEveryFrame | src/config.rs:27-87 | for every accepted configuration the WebSocket library accepts messages and frames of exactly the sizes the caller allowed, each message within the limit converts to a u32 permit count and fits the byte budget, and every data or control frame fits the write buffer with its largest header, without overflow of a 64-bit usize |
| Config.HeaderAllowanceIsTight | src/config.rs:78-87 | a message that fills the budget fills the write buffer exactly when it needs the longest header |
| Cells.PublishersRefineRegister | src/driver.rs:702-776 | any sequence of begin-close, peer-close, terminal, writer-failure and timeout publications leaves the state cell as one declarative rule says: the first terminal publication decides, and failure or timeout yields to an earlier peer outcome |
| Cells.FirstTerminalDecides | src/driver.rs:739-776 | after the first terminal publication nothing published later changes the cell |
| Cells.StateWatch.BeginCloseIfOpen | src/driver.rs:359-366 | moves Open to Closing and nothing else, and says whether it did |
| Cells.StateWatch.PublishTerminalValue | src/driver.rs:739-748 | closes the cell with the value unless it is closed, notifying only of a change |
| Cells.StateWatch.PublishPeer | src/driver.rs:750-759 | records the first peer outcome only, and never over Closed |
| Cells.StateWatch.PublishFailure | src/driver.rs:702-716 | the value returned is always the one the cell ends up Closed with; an outcome already known wins |
| Cells.StateWatch.PublishTimeout | src/driver.rs:761-776 | closes with the peer outcome if there is one, else with the timeout error |
| Cells.SignalWatch.RaiseAbort | src/driver.rs:778-787 | Abort is reached from everywhere and absorbs |
| Cells.SignalWatch.RaiseLocalClose | src/driver.rs:789-798 | only Running moves to LocalClose |
| Cells.SignalWatch.RaisePeerClose | src/driver.rs:800-812 | Running and LocalClose move to PeerClose, Abort stays |
| Cells.DriverTaskGuard.constructor | src/driver.rs:62-73 | a new guard is counted |
| Cells.DriverTaskGuard.Drop | src/driver.rs:75-80 | a dropped guard is no longer counted, and the saturating subtraction never clips |
| Lanes.OutboundLane.TryAdmit | src/driver.rs:246-278 | admission takes bytes and an item permit exactly when both are there and the queue is open; a refusal leaves both budgets as they were |
| Lanes.OutboundLane.DropAdmission | src/driver.rs:56-60 | dropping an admission undoes it |
| Lanes.OutboundLane.Submit | src/driver.rs:280-296 | the admission becomes one queue entry, at the end, with its bytes |
| Lanes.OutboundLane.Take | src/driver.rs:626-633 | the writer takes the oldest command and its bytes stay held |
| Lanes.OutboundLane.Finish | src/driver.rs:630-643 | the reply goes out, then the bytes come back |
| Lanes.OutboundLane.DropReceiver | src/driver.rs:575-582 | the end of the writer closes the queue, drops every queued reply and returns every queued byte |
| Lanes.DrainedReturnsBytes | src/driver.rs:575-582 | draining returns exactly the bytes the queue held |
| Lanes.DrainedDropsReplies | src/driver.rs:298-300 | draining drops the reply of every queued send and of no other |
| Lanes.InboundLane.TryAcquire | src/driver.rs:545-554 | permits are taken exactly when they are there; a message within the budget is refused only while others hold bytes |
| Lanes.InboundLane.GiveBack | src/driver.rs:550-573 | a permit dropped without its message returns exactly its bytes |
| Lanes.InboundLane.Send | src/driver.rs:562-572 | the message enters at the end with its bytes, unless the queue is full or the receiver gone |
| Lanes.InboundLane.Take | src/driver.rs:314-321 | a receive gets the oldest message and gives back exactly its bytes |
| Lanes.InboundLane.DropReceiver | src/driver.rs:409-413 | dropping the receiver returns every queued byte |
| Lanes.ReceiveFlag.Claim | src/driver.rs:419-430 | the flag is claimed by one receive at a time; a second one gets a concurrency error |
| Driver.ConnectionDriver.BeginClose | src/driver.rs:353-388 | the whole effect of an uninterrupted begin_close on state, signal, flags, counter and watchdogs, with every guard accounted for |
| Driver.ConnectionDriver.Abort | src/driver.rs:344-351 | the whole effect of an uninterrupted abort |
| Driver.ConnectionDriver.FinishReaderFailure | src/driver.rs:530-534 | the effect of the three steps of the failing reader |
| Driver.NoCancelInside | src/driver.rs:344-388 | begin_close and abort contain no await and no choice: no cancellation of the call is enabled inside them and each access has one successor |
| Driver.BegunCloseIsItsSteps | src/driver.rs:353-388 | begin_close in one piece does what its single accesses do one after another |
| Driver.AbortedIsItsSteps | src/driver.rs:344-351 | abort in one piece does what its single accesses do one after another |
| Driver.BeginCloseOnce | src/driver.rs:353-388 | a begin_close spawns a watchdog and starts the local close if and only if it is the first of an Open connection; any later one changes neither cell and leaves the counter as it was |
| Assertions.StepKeepsAssertions | src/driver.rs:246-648 | every step of every task and call keeps the assertion of every program point, and moves each cell only upwards |
| Counting.StepKeepsCount | src/driver.rs:62-80 | every step keeps the counter equal to the number of live guards and the number of watchdogs at most one |
| Counting.CallerKeepsCount | src/driver.rs:353-388 | the close_timeout_started test never decides anything, and a guard being dropped is counted |
| Timers.StepKeepsHold | src/driver.rs:353-388 | from the moment `closing` is set until Closed somebody is about to publish or holds a timer that is not overdue |
| Timers.HeldCloseIsBounded | src/driver.rs:476-528 | with `closing` set and the state not Closed there is a begin_close or abort in flight, a live watchdog or a reader past its close branch, and at most close_timeout has passed |
| Outflow.StepConserves | src/driver.rs:246-301 | every step conserves outbound bytes and keeps reserved plus queued items within the queue |
| Outflow.AdmissionKeepsItsSlot | src/driver.rs:280-296 | an admission in use or given back always finds its item permit |
| SendOrder.StepKeepsOrder | src/driver.rs:575-649 | every accepted send is resolved at most once and none is lost or refused, what a call reports is what its reply says, and Ok answers follow queue order |
| SendOrder.StepKeepsWire | src/driver.rs:575-692 | frames go out as data in queue order and then at most one close frame |
| Inflow.StepDelivers | src/driver.rs:536-573 | every step conserves inbound bytes, keeps one receive at a time past its claim, and loses or repeats no message on the way to it |
| Inflow.BlockedReaderHasBacklog | src/driver.rs:545-572 | a reader blocked on bytes or room implies a message queued or being taken, which needs max_message_size to be within max_buffered_bytes |
| Inflow.BacklogFalls | src/driver.rs:314-321 | while the reader is blocked no task and no call adds to that backlog, and each message taken or released takes away from it |
| Inflow.OneReceiverAtATime | src/driver.rs:314-316 | the receive that holds the claim always finds the mutex free |
| Inflow.CancelConsumesNothing | src/driver.rs:314-321 | cancelling a receive at either await takes no message |
| Inflow.CancelledReceiveGivesBack | src/driver.rs:415-436 | when a cancelled receive has ended, flag and mutex are free again and the queue is as it was |
| Settling.StepKeepsDebts | src/driver.rs:344-351 | in every Closed state a reader still looping and a writer not on its way out has been sent a signal or abort, or somebody is about to send it |
| Settling.ZeroMeansRest | src/driver.rs:826-838 | reading the counter as zero in a Closed state means that reader, writer and watchdog have ended and no spawn is under way |
| Settling.RestIsStable | src/driver.rs:353-388 | no step leads out of that rest |
| Runs.RunIsSound | src/driver.rs:130-195 | every state of every run satisfies all invariants |
| Runs.StateLeadsSignal | src/driver.rs:739-812 | both cells only move up their orders, change at most three times per run, and the state leads the signal |
| Runs.OneOutcomeForEveryone | src/driver.rs:298-342 | whatever failed sends, failed receives and close() calls report, at any times of a run, is one and the same value, with which the state is Closed |
| Runs.NoTaskEndsEarly | src/driver.rs:438-649 | when the reader or the writer has ended, by returning or by an abort, or a lane reports closed, the state is Closed |
| Runs.TerminalErrorIsFinal | src/driver.rs:398-406 | terminal_error after a closed queue or a dropped reply reads the final value, so its Open and Closing arms are not taken there |
| Runs.CloseIsBounded | src/driver.rs:353-388 | once more than close_timeout has passed since the step that set `closing`, the state is Closed, whatever calls are made or cancelled |
| Runs.CloseLeavesNothingBehind | src/driver.rs:323-342 | after a close() has returned, reader, writer and watchdog have ended, the lanes are shut, this stays so, and the counter counts only calls inside begin_close |
| Outcomes.PeerOutcomeIsPreserved | src/driver.rs:518-528 | once PeerClosed(o) is published the Closed value is o on every schedule, if and only if abort() did not publish in between |
| Outcomes.OutcomeHasACause | src/driver.rs:476-515 | a Closed value other than a transport error comes from a close frame read off the wire and classified as it says, clean exactly for no code, 1000 or 1001, or from an orderly end seen while `closing` was set; a locally initiated one from a close() or abort() that had begun |
| Outcomes.CloseSucceedsAfterCleanEnd | src/driver.rs:323-342 | a close() that has returned succeeded if and only if a clean close frame came off the wire or an orderly end was seen while `closing` was set; one that failed reports the value the state is Closed with |
| Writes.AnsweredIfWritten | src/driver.rs:630-636 | a send is answered Ok, or about to be, if and only if the write of its message has succeeded |
| Writes.WireErrorIsPublished | src/driver.rs:636-648 | an error in a write, flush or close frame becomes the final value unless an outcome was known before; the send being written is refused with the final value and never answered Ok |
| Writes.WriterFailsOnlyOnErrors | src/driver.rs:597-648 | the writer publishes a failure only for an error of the wire, with its text, unless the state is Closed already |
| Writes.CloseFrameFollowsLocalClose | src/driver.rs:671-686 | a close frame goes out only after a local close has begun, and the writer waits for the peer only after it has sent one |
| Writes.NoCloseAfterAbort | src/driver.rs:590-686 | once the signal is Abort the writer begins neither a close frame nor the flush of a close |
| Writes.OutcomeFollowsFlush | src/driver.rs:595-603 | the writer publishes the peer's outcome only after a successful flush |
| Endings.LastItemDecides | src/driver.rs:455-528 | a close frame, read error or end of stream decides what the reader publishes: the frame as classified, a normal close for an end expected after a local close, a transport error otherwise; it stands unless the state was Closed before or an abort() overrides a pending peer outcome |
| Endings.NothingIsReadAfterwards | src/driver.rs:445-517 | after such an item, or when the reader finds the receiver of its messages gone, no item is read off the wire any more |
| Endings.LastItemIsReported | src/driver.rs:323-342 | a close() that returns after such an item reports exactly that value, with the same two exceptions |
| Causes.EveryOutcomeHasACause | src/driver.rs:344-648 | every final value comes from an abort(), a close that took close_timeout, an item read and what it means, or an error in writing |
| Causes.TimeoutsAreNotEarly | src/driver.rs:840-848 | a connection is Closed as timed out only if close_timeout has passed since `closing` was set |
| Causes.ReaderWaitsLongEnough | src/driver.rs:518-528 | after a peer close the reader gives up on the handshake only when close_timeout has passed since it began to wait and the state is not Closed |
| Answers.NothingOversized | src/driver.rs:246-312 | no admission, queued command or command in the writer's hands is larger than max_message_size |
| Answers.AdmissionDecides | src/driver.rs:246-278 | an uninterrupted admission is granted if and only if the state is Open, the size allowed, the bytes free and a slot there, and then holds exactly these; otherwise the first check that fails gives the error (in Closing a local normal close, after that the known outcome) and both budgets are as before |
| Answers.SendAnswersTruly | src/driver.rs:280-301 | a queued send that was not cancelled answers Ok if and only if its message was answered, else the value the state is Closed with; a refused send was never queued and names the check that refused it; nothing else answers cancelled |
| Answers.ReceiveAndCloseAnswerTruly | src/driver.rs:314-342 | a receive is refused only while another one has the claim, and receive() and close() end as cancelled only when they were |
| Flushing.PingIsFlushed | src/driver.rs:482-484 | after a ping or pong a flush is about to be requested, or requested, or has been begun since |
| Flushing.FlushesHavePings | src/driver.rs:606-614 | each flush answers a ping or pong of its own |
| Runs.AbortDecides | src/driver.rs:344-351 | what abort() publishes is final: abandoned, unless the state was Closed before |
| Runs.AbortTakesEffect | src/driver.rs:344-351 | after abort() the state is Closed, the signal Abort, and both tasks have been asked to abort |
| Traffic.TakenIsOffTheWire | src/driver.rs:463-475 | the messages the model calls taken are those the run read off the wire |
| Traffic.ReceivesReturnAPrefix | src/driver.rs:536-573 | receives return, in order and without repeats, a prefix of the data messages off the wire, and none is dropped while the signal is Running |
| Traffic.IntakeStops | src/driver.rs:536-573 | once the signal has left Running only the message the reader had in hand may still be enqueued |
| Traffic.FailedReceiveMissedNothing | src/driver.rs:314-321 | a receive fails only after everything enqueued has been delivered, and with the final value |
| Traffic.InboundBudgetHolds | src/driver.rs:536-573 | inbound permits are conserved and payloads in reader and queue exceed the budget by at most one message |
| Traffic.OutboundBudgetHolds | src/driver.rs:246-301 | outbound bytes and items are conserved, none is for a message larger than max_message_size, and at most max_queue + 1 admissions are unanswered |
| Traffic.SendsGoOutInOrder | src/driver.rs:575-649 | sends answered Ok were written and are a prefix of queue order, frames go out in that order, and at most one send is answered Ok after the signal left Running |
| Traffic.NothingAfterClose | src/driver.rs:661-692 | the driver writes nothing after its close frame (section 5.5.1 of RFC 6455) |
| Traffic.ReturnedIsReturned | src/driver.rs:314-321 | the messages the model calls returned are those with which receive calls of the run finish |
| Traffic.RestReleasesPermits | src/driver.rs:323-342 | after a close() has returned the tasks hold no permit of either budget |
| Traffic.CounterIsExact | src/driver.rs:62-80 | tasks_remaining is the number of live guards in every state of every run |
| Traffic.WatchdogIsSpawnedOnce | src/driver.rs:353-388 | at most one step of a run spawns a watchdog, however many close() calls there are |
| Fairness.ReadyStaysReady | src/driver.rs:814-848 | whoever can go on still can after a step of anybody else, so no wake-up is lost and the assumption on schedules is weak fairness |
| Fairness.Progress | src/driver.rs:814-848 | the proof rule: a rank that the ready actor lowers and nobody raises comes down to zero on every weakly fair run |
| Enabled.ReadyCanStep | src/driver.rs:246-648 | whoever is called ready has a step of its own in every reachable state |
| Schedules.EveryRunHasAFairContinuation | src/driver.rs:246-648 | every finite run is the beginning of a fair endless run |
| Draining.ReaderDescends | src/driver.rs:438-534 | a reader that has been told to stop, or has left its loop, only comes nearer to its end in a Closed state |
| Draining.WriterDescends | src/driver.rs:575-649 | a writer on its way out only comes nearer to its end, whatever is still sent to it |
| Draining.WaitersAreReady | src/driver.rs:814-838 | a close() waiting for a state or counter that is already there has not seen the last version and is woken |
| Liveness.ReaderEnds | src/driver.rs:438-534 | from every Closed state of a fair run the reader comes to its end |
| Liveness.WriterEnds | src/driver.rs:575-649 | from every Closed state of a fair run the writer comes to its end |
| Receptive.EnvironmentIsFree | src/driver.rs:246-692 | in every reachable state the wire may yield any item and take or fail any write, calls may come and be cancelled at any await, an admission may be used or misused, either queue may be served, and time may pass when all wait |
| Liveness.ClosedDrainsToNothing | src/driver.rs:323-388 | from every Closed state of a fair run reader, writer and watchdog end, the counter reaches zero, and both hold for ever |
| Liveness.CloseReturnsEventually | src/driver.rs:323-342 | on every fair run whose clock does not stop every close() returns or is cancelled |
| Liveness.ReceiveReturnsEventually | src/driver.rs:314-321 | once the state is Closed every receive() returns |
| Liveness.QueuedSendIsAnswered | src/driver.rs:575-649 | once the state is Closed every send queued before the writer leaves its drain gets its reply |
| Liveness.SendReturnsEventually | src/driver.rs:280-301 | once the state is Closed every send() waiting then returns |
| Delivery.ConsumerUnblocks | src/driver.rs:536-573 | on any endless run a consumer that keeps taking while messages are queued unblocks the reader |
| Delivery.LeaverEnds | src/driver.rs:415-436 | a receive on its way out, a cancelled one included, ends with what it has |
| Delivery.EveryMessageIsReturned | src/driver.rs:536-573 | on a fair run, while the signal stays Running and receives keep coming uncancelled, every data message taken off the wire is returned, in order |
| Responses.WireErrorIsAnswered | src/driver.rs:606-648 | on every fair run an error of the wire closes the connection, and the send being written is refused with the final value |
| Sending.PendingSendIsWritten | src/driver.rs:626-659 | on every fair run, while the connection is running, the wire responds and no ping or pong comes any more, every pending send is answered Ok |
| Responses.WrittenSendReturns | src/driver.rs:630-636 | on every fair run a waiting send whose write succeeds returns Ok, or is cancelled |
| Responses.LocalCloseGoesOut | src/driver.rs:661-692 | while the wire responds, a local close puts a close frame on it, unless the peer closes or the connection fails first |
| Responses.LastItemIsPublished | src/driver.rs:455-528 | on every fair run the item with which the reading ends comes to be published as what it means |
| Responses.DroppedDriverEnds | src/driver.rs:409-413 | on every fair run dropping the last handle closes the connection and ends both tasks |
| Handshake.WriterNears | src/driver.rs:575-692 | with the peer's close signalled every step brings the writer nearer to publishing the outcome |
| Handshake.PeerCloseCompletes | src/driver.rs:518-528 | once a peer close is known and while the wire responds, the state becomes Closed by the handshake, without any help of the clock |
| Facade.EventKeepsExact | fogws/client.py:50-72 | every call, completion, error, cancellation and interrupt keeps the facade exact |
| Facade.ReceiveIsExact | fogws/client.py:50-95 | over any sequence of events the flag is set exactly while a call is inside, only the newest native receive is retained, and what calls were given plus what is retained are the results of all native receives that were not dropped, once each and in order |
| Facade.FlagFollowsAnswers | fogws/client.py:50-95 | by the answers alone: the flag is set, and a call refused, exactly while a call has been left suspended and has not answered since |
| Facade.CancelledWaiterHandsOver | fogws/client.py:50-72 | after a cancelled call the next one waits on the same native receive, or gets its result at once |
| Facade.LosslessExactly | fogws/client.py:61-72 | every native receive is given to a call or retained if and only if no exception other than a cancellation was thrown into a suspended call and no directly cancelled future was let go |
| Facade.OneNativeReceive | fogws/client.py:50-72 | at most one native receive is outstanding, now and after one more call at any time, if and only if no such exception was thrown in while the future was outstanding |
| Facade.ClosedCallLosesItsReceive | fogws/client.py:65-72 | the input that breaks both: a suspended call is closed, the next starts a second native receive, and the message of the first reaches nobody |
| Facade.Connection.Receive | fogws/client.py:50-60 | a call is refused while another is inside, reuses the retained future, and gets a finished result at once |
| Facade.Connection.NativeEnds | fogws/client.py:56-60 | an outstanding native receive ends once, whoever waits for it, retained or not |
| Facade.Connection.Resume | fogws/client.py:60-72 | a resumed call returns the message, raises the error or is cancelled as the retained future was; the future is let go and the flag clear |
| Facade.Connection.CancelWaiter | fogws/client.py:61-72 | a cancelled call gets nothing, the flag is clear, and the native receive is retained unless it was cancelled itself |
| Facade.Connection.Interrupt | fogws/client.py:65-72 | any other exception thrown into the call ends it with nothing, clears the flag and forgets the native receive |
| Facade.Connection.ClaimReceiveWaiter | fogws/client.py:89-95 | the flag is set afterwards, and the claim is refused exactly when it was set before |
| EndToEnd.PythonReceivesAPrefix | fogws/client.py:50-72 | with facade and driver together, the messages receive() calls return are in order a prefix of the data messages off the wire, at most one that left the queue is still to be returned, and cancelled waiters lose none |
| EndToEnd.DriverNeverRefuses | src/driver.rs:419-430 | the driver never refuses a native receive of the facade for concurrency |

## Left out

- EndToEnd.PythonReceivesAPrefix: for runs in which no native receive is cancelled itself and nothing but a cancellation is thrown into a suspended call; Facade.ClosedCallLosesItsReceive shows what happens otherwise.
- EndToEnd.DriverNeverRefuses: for the same runs, with the facade as the only caller of the driver's receive.
- Delivery.EveryMessageIsReturned: assumes that receives keep coming and are not cancelled, which the driver cannot bring about.
- Schedules.EveryRunHasAFairContinuation: the continuation starts no call and moves no clock, so it does not show that the runs of Delivery.EveryMessageIsReturned or Liveness.CloseReturnsEventually, which assume more, exist.
- Machine.ReaderStep, Machine.WriterStep: the loops of run_reader and run_writer are step relations over program counters rather than methods with loops, because every access of theirs interleaves with the other tasks.
- Machine.Ambient: a command sent on an admission after the writer's receiver is gone may stay unanswered or be dropped at any time; only safety is claimed for such a send.
- Machine.WriterServes: the random choice between control and outbound work is any choice, so while pings keep coming for ever no claim is made that a send is served, nor that a flush is while sends keep coming.
- Machine.Quiet: code between two awaits takes no time on the clock.
- Liveness.CloseReturnsEventually: assumes that a requested task abort is eventually honoured and that the clock does not stop.
- Config.New: takes close_timeout as a number of ticks, or none when the requested seconds are not a representable positive duration; the conversion from floating point is not modelled.
- Framing, masking, handshake and the automatic pong and close replies of the WebSocket library; the stream is an environment that respects max_message_size, and the sink succeeds, fails or blocks.
- The inner workings of channels, semaphores, watch cells and the async runtime: a channel is a bounded queue that drains before it reports closed, a semaphore is a counter, a watch cell has versions. The error arms for a watch sender or semaphore that is gone while its owner lives are not modelled, as the driver keeps both alive.
- An admission that outlives the last handle of its driver: the handle is dropped only when no call and no admission is left.
- Panics, runtime shutdown and the test-only hooks (src/driver.rs:197-244).
- Message texts of errors built from other errors, beyond their kind.
- src/client.rs, src/py.rs and src/runtime.rs: connecting, Python bridging, loop affinity and process guards.
- The finalizer of the facade and its check of the calling context (fogws/client.py:44-48, 52).
