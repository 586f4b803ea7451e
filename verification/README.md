# Fn in Dafny

Fn is a functions platform: load balancers place calls on runners, runners start containers and
keep them hot, a message queue feeds asynchronous calls, and stores keep calls, logs and routes.
This project models the scheduling and bookkeeping core of Fn and proves what that code is for.

Concurrent code is modelled as a state machine whose steps are the critical sections, channel
operations and compare-and-swaps of the goroutines; a *run* is any interleaving of any number of
them, and the theorems hold in every state of every run. Beside what never goes wrong, the `*Life.dfy` files
state what does happen: scripts of steps that are enabled in every state they start from, with their whole effect. Objects with fields become classes whose
methods are proved against functions on values. Algorithms with loops are methods with loops.

| file | what it models |
|---|---|
| `Engagement.dfy`, `EngagementCauses.dfy`, `EngagementLife.dfy` | one engagement of a pure runner: the goroutines of a call handle and their channels, what its messages mean, and what its body does |
| `Placement.dfy`, `PlacementAnswers.dfy`, `PlacementLife.dfy` | load balancers placing calls on many runners with retries and lost messages, runner capacity, and when a call counts as placed |
| `Resource.dfy`, `ResourceRuns.dfy`, `ResourceLife.dfy` | the two-pool RAM and CPU allocator, its tokens, waiters and wakeups |
| `HotSlots.dfy`, `HotSlotLife.dfy` | the hot slot queue: containers and calls racing for slot tokens |
| `Sessions.dfy`, `SessionLife.dfy` | the session group that gates an agent's shutdown, and the goroutines that hold sessions |
| `Trackers.dfy`, `TrackerUnderflow.dfy` | request and container states, the per-queue counters, and exactly when these underflow |
| `BoltLedger.dfy`, `Bolt.dfy` | the reserve-and-delete queue: its ledger, its byte keys and its buckets |
| `Ids.dfy` | sortable ids, their text form and the order-reversing form |
| `CallIndex.dfy` | the S3 call index against the in-memory reference store |
| `Decimate.dfy` | down-sampling of container statistics in place |
| `JumpHash.dfy` | the jump consistent hash and one round of each placer |
| `SlotKey.dfy` | the byte string behind a slot queue key |
| `LogWriters.dfy` | line splitting and size limiting of function logs |
| `RouteList.dfy` | the route store and cursor pagination |
| `Words.dfy`, `Lists.dfy`, `Scripts.dfy`, `SeqSum.dfy`, `ByteOrder.dfy`, `Base64Url.dfy`, `GoSort.dfy` | words, lists, scripts of steps, sums, byte order, base64url and sorting |

Some properties one might expect do not hold of the code as it is. Each is stated with an input that
breaks it and with the condition under which it holds:

- The messages of an engagement are not always legal: a write of the response can outlive Submit, for example
  when the call times out (`Engagement.TimeoutDuringWrite`). A run has no such late write if and only if its
  messages can nowhere become illegal (`Engagement.LegalIffNoLateWrite`).
- Counters can underflow when a tracker is advanced past a state that it has not been counted in yet
  (`Trackers.OverlapUnderflows`). A run never does so if and only if no counter can be made to underflow
  (`TrackerUnderflow.TidyIffNoUnderflow`).
- `Decimate` does not end on sorted samples whose span is shorter than `maxSamples` nanoseconds unless
  they are all at one time or `maxSamples` is at most 2 (`Decimate.LoopsForever`, `Decimate.FinishesIffHalts`).
- A cursor shorter than an id makes the S3 listing return the calls whose ids extend it, which the reference
  listing does not (`CallIndex.ShortCursorDiffers`; `CallIndex.GetCalls` says exactly when the two agree).
- The bytes behind a slot queue key are not unique if strings hold NULs (`SlotKey.NulInValueExample`): every call with
  a NUL anywhere shares its bytes with another one (`SlotKey.NulIsShared`). They are unique among NUL-free calls whose
  annotation values are non-empty, as JSON texts are (`SlotKey.KeyInjective`); without the latter,
  `SlotKey.SharedIffAmbiguous` names exactly the NUL-free calls that share their bytes with another NUL-free one.
- The jump hash divides by zero for some keys (`JumpHash.PanicKey`); `JumpHash.JumpConsistentHash` says exactly when.

Where a comment and the code disagree the model follows the code: the comment on `EncodeDescending`
(`api/id/id.go:274-278`) speaks of 0xFF for characters outside the alphabet, the code indexes with -1 and panics.

## Model

Rows that begin with "Main" are the main results; the others lead up to them or state one operation.

| member | source | states |
|---|---|---|
| Engagement.StepKeepsInv | api/agent/pure_runner.go:180-255 | every enqueue, send, receive and shutdown step that is no late write keeps the invariant that ties what was taken from the out queue to what each goroutine may still send; nobody is parked on a select after the done queue closed |
| Engagement.RunKeepsInv | api/agent/pure_runner.go:594-652 | the invariant holds in every state of every run of one engagement without late writes |
| Engagement.PhaseShape | api/agent/pure_runner.go:202-255 | each phase of the message automaton is exactly one explicit shape of the message sequence |
| Engagement.PhaseIsLegal | api/agent/pure_runner.go:202-255 | what the automaton accepts is a prefix of a refusal or of a complete transcript |
| Engagement.WireIsAlwaysLegal | api/agent/pure_runner.go:322-420 | **Main.** whatever the client, the agent, the network and the scheduler do, as long as no write outlives Submit, the messages sent are a prefix of NACK, or of ACK, at most one ResultStart followed by data frames, then EOF and a successful Finished, or a failed Finished |
| Engagement.LegalIffNotBad | api/agent/pure_runner.go:202-255 | the message automaton refuses exactly the sequences that are no prefix of a transcript |
| Engagement.LegalIffNoLateWrite | api/agent/agent.go:694-718 | **Main.** a run has no late write if and only if nowhere along it the messages can become illegal by going on without one |
| Engagement.TimeoutDuringWrite | api/agent/agent.go:694-718 | the call times out during the first write: ACK, a failed Finished, and then a ResultStart |
| Engagement.ReachesSubmitting | api/agent/pure_runner.go:594-652 | the state that late write starts from is reached from the initial one |
| Engagement.StepKeepsStructure | api/agent/pure_runner.go:594-652 | late writes or not, Submit starts at most once, after a data frame, in an accepted engagement |
| EngagementCauses.MessagesHaveCauses | api/agent/pure_runner.go:202-255 | **Main.** in every run, late writes or not, each message on the wire has its cause: an ACK an accepted try, a NACK a refused one, a result a write of the agent, and success or failure the way Submit returned |
| EngagementCauses.SubmitIsReported | api/agent/pure_runner.go:202-229 | **Main.** however Submit returns in an open session, the load balancer can read exactly that behind all that was said before, and the session ends |
| EngagementCauses.WriteIsSent | api/agent/pure_runner.go:376-420 | a write gets through as one data frame, the first one behind a ResultStart |
| EngagementCauses.AnswerArrives | api/agent/pure_runner.go:234-255 | the answer to a try gets through; an accepted call then waits for data, a refusal ends the session |
| EngagementLife.TryIsHandled | api/agent/pure_runner.go:424-441 | a try is handled |
| EngagementLife.DataIsFed | api/agent/pure_runner.go:626-649 | each data frame is fed to the function, the first one after starting Submit, and the last one ends the loop |
| EngagementLife.OutOfTurnEnds | api/agent/pure_runner.go:424-458 | a message out of turn ends the session without being handled |
| EngagementLife.ClientMayCloseItsSide | api/agent/pure_runner.go:294-318 | a client that closes its side in order cuts nothing off; only a body still waiting for a message ends the session |
| EngagementLife.AnswerReserves | api/agent/pure_runner.go:564-591 | capacity is held exactly from the gate on, by an accepted call and by one that fails behind the gate |
| EngagementLife.ReceiverEndsWithItsMessage | api/agent/pure_runner.go:294-318 | the receiver ends with what it had in hand |
| EngagementLife.StepsComeInTurn | api/agent/pure_runner.go:294-318 | the receiver takes one message at a time, the pipe fails only after Submit was started, the body returns only once the session is closed |
| EngagementLife.FailuresClose | api/agent/pure_runner.go:259-318 | a broken stream, a broken pipe and a cancelled context close the session |
| EngagementLife.ClosingWakes | api/agent/pure_runner.go:138-155 | closing wakes everybody who waits: answers and writes are refused, the response goes on to its next message |
| EngagementLife.OffersFail | api/agent/pure_runner.go:180-198 | in a closed session every offer fails, and all but a failed write shut down |
| EngagementLife.EngageReturns | api/agent/pure_runner.go:619-651 | Engage returns once the session is closed and gives its capacity back |
| EngagementLife.SenderWaits | api/agent/pure_runner.go:322-343 | the sender waits only while nobody offers, and stops once the session is closed |
| EngagementLife.FailedSendCloses | api/agent/pure_runner.go:331-335 | a failed send closes the session |
| Placement.StepKeepsInv | api/agent/runner_client.go:79-129 | every step of clients, placers, runners (late writes included) and network keeps the invariant: an attempt without a sent data frame has none in flight and has not submitted, and all older attempts of a call answered "not placed" |
| Placement.RunKeepsInv | api/runnerpool/ch_placer.go:32-76 | that invariant holds in every state of every run |
| Placement.AtMostOneSubmit | api/agent/runner_client.go:79-129 | **Main.** across all retries of a call over all runners, with lost acks and failed sends, at most one engagement reaches Submit, and only once |
| Placement.NotPlacedNeverSubmits | api/agent/runner_client.go:93-116 | **Main.** after the answer "not placed" that runner never submits the call, however late messages and goroutines are scheduled |
| PlacementAnswers.PlacedIffCommitted | api/agent/runner_client.go:79-129 | **Main.** TryExec answers "placed" if and only if it gave up for all runners, or the runner's first message was read and is no refusal |
| PlacementAnswers.RefusedIsNotPlaced | api/agent/runner_client.go:111-116 | **Main.** in no run is a call reported as placed on a runner that refused it |
| PlacementAnswers.CollectDecides | api/runnerpool/ch_placer.go:50-58 | **Main.** the placer is done with a call if and only if the attempt was committed; otherwise, in particular after a refusal, it can offer the call to every runner |
| PlacementAnswers.ActsBetweenAttempts | api/runnerpool/ch_placer.go:38-75 | a placer gives a call up, or offers it again, only between attempts, after "not placed" |
| PlacementAnswers.StreamIsFifo | api/agent/runner_client.go:131-167 | without loss, what a runner has received and what is under way is what was sent, in order |
| PlacementLife.CallIsOffered | api/agent/runner_client.go:93-104 | an offered call reaches the runner as a try |
| PlacementLife.CallIsRefused | api/agent/pure_runner.go:564-576 | without room the runner refuses, no capacity is taken, and the placer chooses again |
| PlacementLife.CallIsAccepted | api/agent/pure_runner.go:564-591 | with room the runner accepts, the units are committed, and the client starts to send data |
| PlacementLife.RunnerAnswersByRoom | api/agent/pure_runner.go:564-591 | a runner refuses for lack of room exactly if the units do not fit, and accepts only if they do |
| PlacementLife.CallIsSubmitted | api/agent/pure_runner.go:626-649 | the data reaches the runner, which submits the call once |
| PlacementLife.FailureIsReported | api/agent/pure_runner.go:202-213 | a failed submit is reported and the session ends |
| PlacementLife.CallIsDone | api/agent/pure_runner.go:619-651 | at the end the capacity is given back and the call is done |
| PlacementLife.AttemptCanFail | api/agent/runner_client.go:79-109 | before the runner has answered an attempt can fail, for all runners or for this one |
| PlacementLife.FailedAttemptIsNotPlaced | api/agent/runner_client.go:93-109 | an attempt whose engagement, try or answer does not get through is "not placed" for good |
| PlacementLife.MoreDataFollows | api/agent/runner_client.go:131-167 | data goes on exactly until the last frame or until one cannot be sent |
| PlacementLife.ComingAndGoing | api/runnerpool/ch_placer.go:32-76 | new runners have nothing committed, new calls are free to choose, and a call can be given up between attempts |
| Placement.ReleaseNeverPanics | api/agent/pure_runner.go:496-504 | the sub-zero branch of ReleaseCapacity is unreachable |
| Placement.RunnerKeepsCapacity | api/agent/pure_runner.go:564-592 | each runner step keeps committed capacity equal to what the live engagements hold |
| Placement.CapacityIsConserved | api/agent/pure_runner.go:471-504 | **Main.** in every run committed capacity is the sum of the live reservations, never above the total, and zero once all engagements returned; only accepted engagements submit |
| Placement.CapacityManager.CheckAndReserveCapacity | api/agent/pure_runner.go:486-494 | succeeds exactly if the units fit, all or nothing |
| Placement.CapacityManager.ReleaseCapacity | api/agent/pure_runner.go:496-504 | gives back exactly the units, panics exactly if more than committed |
| Resource.InitialIsSound | api/agent/resource.go:401-424 | the initial pools are sound and add up to the machine |
| Resource.ShareOfReserve | api/agent/resource.go:401-404 | the sync reserve is a fifth of the machine, rounded down, exactly below 2^63, and the high-water mark four fifths of the shared pool exactly if that is below 2^61 |
| Resource.AvailableMeans | api/agent/resource.go:115-129 | in a sound state the wrapping comparisons mean plain arithmetic on what is left |
| Resource.SplitFits | api/agent/resource.go:153-174 | shares add up to the request, fit each pool, and async requests never touch the sync reserve, sync requests use it up first |
| Resource.IdleServesThePossible | api/agent/resource.go:132-140 | with nothing in use, available and possible are the same |
| Resource.ResourceTracker.constructor | api/agent/resource.go:357-500 | the totals and marks derived from the machine's memory and CPU, or the fixed memory of other systems |
| Resource.ResourceTracker.AllocResourcesLocked | api/agent/resource.go:153-174 | takes exactly the split shares and keeps the pools sound |
| Resource.ResourceTracker.Decrement | api/agent/resource.go:176-183 | gives back exactly the token's shares |
| Resource.ResourceTracker.GetResourceTokenNB | api/agent/resource.go:192-210 | refuses exactly the unavailable and otherwise allocates |
| ResourceRuns.StepKeepsInv | api/agent/resource.go:233-335 | every lock region, wait, wake, broadcast, hand-over and close keeps the allocator's invariant |
| ResourceRuns.RunKeepsInv | api/agent/resource.go:233-335 | the invariant holds in every run, for any number of requests |
| ResourceRuns.ResourcesAreConserved | api/agent/resource.go:153-190 | **Main.** each used counter is the sum of the unclosed tokens' shares and within its total; each token's shares add to its request; async tokens hold nothing of the reserve |
| ResourceRuns.NoTokenLeaks | api/agent/resource.go:282-290 | **Main.** an unclosed token is being offered or was delivered; the waiter count is the number of waiters |
| ResourceRuns.NoLostWakeup | api/agent/resource.go:254-280 | **Main.** a sleeper that could proceed or was cancelled always has an enabled step that wakes it |
| ResourceRuns.NobodyStarvesAtRest | api/agent/resource.go:132-140 | **Main.** once all tokens are closed nothing is in use, every admitted request is available and nobody sleeps for it |
| ResourceRuns.CloseIsIdempotent | api/agent/resource.go:108-113 | a second Close of a token changes nothing, at whatever point of a run |
| ResourceLife.RequestIsServed | api/agent/resource.go:192-210 | a request that is possible and available gets a token of its own split, which is taken from the pools |
| ResourceLife.RequestIsRefused | api/agent/resource.go:192-210 | a non-blocking request that is not available is told so, and nothing is taken |
| ResourceLife.RequestSleeps | api/agent/resource.go:267-274 | a blocking request that is possible but not available sleeps and is counted |
| ResourceLife.AsyncIsSignalled | api/agent/resource.go:298-332 | the async signal comes at once below the high-water marks and waits otherwise |
| ResourceLife.TokenIsReturned | api/agent/resource.go:176-189 | closing a token gives its shares back and wakes exactly the sleepers |
| ResourceLife.TakeAndGive | api/agent/resource.go:171-183 | taking and giving back leaves the pools as they were |
| ResourceLife.SleeperIsServed | api/agent/resource.go:267-290 | a sleeper whose request has become available is served after the next broadcast |
| ResourceLife.CancelledSleeperLeaves | api/agent/resource.go:254-280 | a sleeper whose context ends is woken by its own watcher and leaves without a token |
| ResourceLife.AbandonedTokenIsReturned | api/agent/resource.go:285-290 | a token that nobody receives any more is given back by its own goroutine |
| ResourceLife.LeavesOnlyIfCancelled | api/agent/resource.go:277-280 | a goroutine leaves without having delivered only if its context has ended |
| HotSlots.RemoveProperties | api/agent/slots.go:76-94 | removing a token keeps the order and drops exactly that token |
| HotSlots.SlotQueue.QueueSlot | api/agent/slots.go:140-152 | appends a fresh, larger id |
| HotSlots.SlotQueue.RemoveLocked | api/agent/slots.go:83-92 | the backward scan removes exactly the token |
| HotSlots.StepKeepsInv | api/agent/agent.go:512-556 | every step of containers, calls, dequeuers and watchers keeps the queue's invariant |
| HotSlots.RunKeepsInv | api/agent/agent.go:808-836 | the invariant holds in every run |
| HotSlots.ChannelsCloseOnce | api/agent/slots.go:76-95 | **Main.** trigger and done of a token are closed at most once, done only after trigger; an unowned token is in the queue and a finished one is not |
| HotSlots.OneCallPerContainer | api/agent/agent.go:512-556 | **Main.** two calls never hold unfinished slots of one container |
| HotSlots.OwnerIsStable | api/agent/slots.go:76-82 | the winner of a token never changes |
| HotSlots.OneWinnerForGood | api/agent/slots.go:76-95 | **Main.** whoever has won a token, at this or any later time, is the same call, and never the container |
| HotSlots.FatalErrorEndsContainer | api/agent/agent.go:808-836 | **Main.** a container whose slot recorded a fatal error never offers another slot |
| HotSlots.FatalIffFailed | api/agent/agent.go:657-661 | a slot carries an error if and only if a call failed fatally on it or its container never started |
| HotSlots.FatalExecutionEndsContainer | api/agent/agent.go:715-717 | **Main.** after a call fails fatally on a slot, its container never offers another one |
| HotSlots.ServedContainerReturns | api/agent/agent.go:808-836 | a container that sees its call done goes back to offer a slot if and only if nothing failed on the one it served, and only after that slot was closed |
| HotSlots.YoungestIsOffered | api/agent/slots.go:97-138 | last in, first out: a dequeuer offers the slot queued last of those still there |
| HotSlotLife.CallTakesSlot | api/agent/agent.go:512-556 | a waiting call is offered the slot, wins it, takes it out of the queue and signals the container |
| HotSlotLife.CallEnds | api/agent/agent.go:808-836 | the container learns it, the call runs and closes the slot, and the container goes back to its loop, or ends after a fatal error |
| HotSlotLife.ContainerOffers | api/agent/slots.go:140-152 | a new container that starts offers a fresh slot, last in the queue, and wakes exactly the sleeping dequeuers |
| HotSlotLife.ContainerFailsToStart | api/agent/agent.go:784-795 | a container that cannot start queues one slot with its error and ends |
| HotSlotLife.ContainerWithdraws | api/agent/slots.go:76-95 | a container that wants to end takes its own slot out of the queue and closes it |
| HotSlotLife.ContainerCanEnd | api/agent/agent.go:808-925 | a container can end on a shutdown and when freezing or unfreezing fails |
| HotSlotLife.EndedForGood | api/agent/agent.go:808-836 | and then does nothing any more |
| HotSlotLife.OfferIsDropped | api/agent/slots.go:117-130 | an offer is dropped only if its token was triggered or the context ended |
| HotSlotLife.LoserWaitsAgain | api/agent/agent.go:520-545 | a call that finds the token taken waits again |
| HotSlotLife.CancelledDequeuerStops | api/agent/slots.go:100-116 | when its context ends a sleeping dequeuer is woken and stops |
| HotSlots.SleepingDequeuerIsWoken | api/agent/slots.go:97-138 | **Main.** a dequeuer asleep beside a non-empty queue or a cancelled context always has an enabled step that wakes it |
| Sessions.WaitGroup.AddSession | api/common/wait_utils.go:70-86 | admits a session exactly while open and below the maximum; for any delta it says what is refused and what wraps |
| Sessions.WaitGroup.DoneSession | api/common/wait_utils.go:91-105 | panics exactly without sessions, broadcasts exactly on the last |
| Sessions.WaitGroup.CloseGroup | api/common/wait_utils.go:109-119 | closes the closer channel once and waits exactly while sessions are left |
| Sessions.StepKeepsInv | api/agent/agent.go:274-328 | every start, hand-over and end of a holder, and every closer step, keeps the session invariant |
| Sessions.RunKeepsInv | api/agent/agent.go:197-229 | the invariant holds in every run |
| Sessions.SessionsMatchHolders | api/agent/async.go:23-53 | **Main.** the session count equals the live holders (dequeue loop, async runs, submits, scheduled call ends, hot containers), the stacking counter equals the running call ends, DoneSession never panics, no closer sleeps at zero |
| Sessions.ClosedOnlyDrains | api/common/wait_utils.go:70-89 | **Main.** after closing no session starts |
| Sessions.DriverOutlivesHolders | api/agent/agent.go:197-211 | **Main.** the driver is closed once, only after everything drained, and no holder runs afterwards |
| Sessions.FinishedIffDriverClosed | api/agent/agent.go:197-211 | Close has come through for somebody if and only if the driver is closed |
| SessionLife.HolderStarts | api/common/wait_utils.go:70-86 | while the group is open every kind of goroutine gets its session; after closing none does |
| SessionLife.HolderEndsItself | api/common/wait_utils.go:91-105 | every holder can end, its session goes, and the last one wakes exactly the sleeping closers |
| SessionLife.EndingWithoutSessionPanics | api/common/wait_utils.go:97-99 | ending a session that is not there panics |
| SessionLife.CallEndRunsThrough | api/agent/agent.go:274-291 | a scheduled call end takes over the session of its submit and gives it back |
| SessionLife.LoopHandsOn | api/agent/async.go:23-53 | the dequeue loop hands its session to the run of a call and gets another while the group is open |
| SessionLife.CloseComesThrough | api/agent/agent.go:197-211 | closing without sessions comes through at once and closes the driver |
| SessionLife.CloseWaits | api/common/wait_utils.go:109-119 | closing with sessions closes the group at once and sleeps |
| SessionLife.LastHolderLetsCloserThrough | api/common/wait_utils.go:101-119 | when the last holder ends, a sleeping closer gets through and closes the driver |
| Trackers.CountersTrackStates | api/agent/state_trackers.go:76-136 | **Main.** in every interleaving of the lock, enter and exit sections each counter equals, modulo 2^64, the trackers in its state less owed enters plus owed exits |
| Trackers.UpdateMovesOne | api/agent/state_trackers.go:105-136 | an undisturbed update, forward or of a busy or done container back to idle, moves one unit from the old counter to the new one |
| Trackers.StatesAdvance | api/agent/state_trackers.go:76-117 | a request never goes back, and a container that was idle is never starting again |
| Trackers.OrderlyIsCalm | api/agent/state_trackers.go:76-136 | if a tracker's own updates do not overlap at all, all but its latest are finished |
| Trackers.OrderlyCountersAreExact | api/agent/slots.go:212-242 | **Main.** then each counter is exactly the number of trackers counted in its state |
| Trackers.OverlapUnderflows | api/agent/state_trackers.go:105-136 | a run in which a container tracker overtakes its own update and wraps its busy counter |
| TrackerUnderflow.TidyContribution | api/agent/state_trackers.go:76-136 | a tracker that never overtook counts at least zero everywhere, and covers every exit it owes |
| TrackerUnderflow.OvertakingCanUnderflow | api/agent/state_trackers.go:76-136 | after one overtaking step some continuation without any makes a counter underflow, whatever the other trackers are doing |
| TrackerUnderflow.TidyIffNoUnderflow | api/agent/state_trackers.go:76-136 | **Main.** a run never overtakes if and only if nowhere along it a counter can be made to underflow by going on without overtaking |
| TrackerUnderflow.TidyExitsNeverUnderflow | api/agent/slots.go:220-242 | without overtaking every counter is its unwrapped value, and every exit that is due finds that value positive |
| TrackerUnderflow.DeletesOnlyIdleQueues | api/agent/slots.go:156-171 | **Main.** in every run without overtaking whose counts fit into 64 bits, the idle test of deleteSlotQueue holds if and only if no attached tracker is counted as active |
| Trackers.QueueStats.IsIdleLocked | api/agent/slots.go:156-171 | the six counters read are exactly the active ones |
| Trackers.SlotQueueMgr.GetSlotQueue | api/agent/slots.go:246-259 | equal keys share one queue; exactly a new key makes a new one |
| Trackers.SlotQueueMgr.DeleteSlotQueue | api/agent/slots.go:263-274 | deletes exactly if the queue is idle |
| Trackers.QueueStats.EnterState | api/agent/slots.go:212-234 | adds one to a real state's counter, modulo 2^64, and ignores other states |
| Trackers.QueueStats.ExitState | api/agent/slots.go:220-242 | subtracts one, modulo 2^64 |
| Trackers.StateTracker.UpdateState | api/agent/state_trackers.go:76-136 | moves exactly along the allowed transitions and moves one unit between the two counters |
| BoltLedger.PushOk | api/mqs/bolt.go:207-233 | writing the next message key implements a push on the ledger, for every readable key scheme |
| BoltLedger.ReserveOk | api/mqs/bolt.go:275-318 | moving a job to the timeout bucket under its three keys implements a reservation |
| BoltLedger.DeleteOk | api/mqs/bolt.go:327-349 | dropping the three keys implements a delete |
| BoltLedger.RestoreOk | api/mqs/bolt.go:118-127 | putting an expired job back under its own key implements a restore |
| BoltLedger.EntryMoves | api/mqs/bolt.go:207-349 | an entry moves only by being reserved from the queue, restored by a tick after its time, or deleted under its own id while that very reservation is outstanding |
| BoltLedger.EntriesPersist | api/mqs/bolt.go:207-349 | **Main.** in every run nothing is lost or duplicated: an entry keeps number and job for good, and deleted stays deleted |
| BoltLedger.StaysReserved | api/mqs/bolt.go:107-132 | until a tick expires it, a reserved entry stays reserved or is deleted |
| BoltLedger.NoDoubleDelivery | api/mqs/bolt.go:267-325 | **Main.** a job is handed out twice only with an expiring tick between |
| BoltLedger.DeliveredInOrder | api/models/mq.go:15-18 | **Main.** in every run a job is handed out only when nothing of a higher priority and nothing pushed before it in its own priority is queued |
| BoltLedger.RestoredGoesAhead | api/models/mq.go:15-28 | a timed-out job is again ahead of everything pushed after it |
| Bolt.MsgKeyOrder | api/mqs/bolt.go:243-248 | byte order of message keys is numeric order and the number can be read back |
| Bolt.ResKeyRoundTrip | api/mqs/bolt.go:250-265 | resKeyToProperties inverts resKey |
| Bolt.ResKeyOrder | api/mqs/bolt.go:250-256 | reservation keys sort by expiry, then by message number |
| Bolt.TagRoundTrip | api/mqs/bolt.go:29-45 | reservation keys, id keys and job keys can be told apart and read back |
| Bolt.ByteKeysReadable | api/mqs/bolt.go:29-45 | the byte keys are a readable scheme, so the ledger results apply to them |
| Bolt.Seek | api/mqs/bolt.go:117-117 | a cursor finds the least key at or after, or strictly after, a target, or there is none |
| Bolt.LeastIsFront | api/mqs/bolt.go:275-290 | the least key of a queue bucket is the oldest queued job |
| Bolt.BreakIsSafe | api/mqs/bolt.go:117-121 | the first reservation in key order expires no later than any other, so the early break skips only unexpired ones |
| Bolt.Recover | api/mqs/bolt.go:114-128 | **Main.** the cursor loop with its early break restores exactly the expired reservations |
| Bolt.BoltDbMQ.Push | api/mqs/bolt.go:207-233 | the buckets implement the ledger with the job appended to its priority |
| Bolt.BoltDbMQ.Reserve | api/mqs/bolt.go:267-325 | **Main.** returns the least push sequence of the highest non-empty priority and reserves exactly that entry; nothing if nothing is queued |
| Bolt.BoltDbMQ.Delete | api/mqs/bolt.go:327-349 | fails exactly without a reservation on record, otherwise deletes it |
| Bolt.BoltDbMQ.Tick | api/mqs/bolt.go:107-132 | **Main.** exactly the expired entries of all priorities are queued again |
| Ids.EncodingTable | api/id/id.go:130-132 | the digit function is the alphabet string |
| Ids.CaseDoesNotMatter | api/id/id.go:184-213 | the decoding table does not mind the case of a letter and has no entry for I, L, O and U |
| Ids.MasksAreArithmetic | api/id/id.go:141-249 | the shifts and masks of one, two and three bytes are the arithmetic of the model |
| Ids.BlockVal | api/id/id.go:141-180 | eight base-32 digits spell the same number as the five bytes they come from |
| Ids.UnblockVal | api/id/id.go:221-249 | five decoded bytes spell the same number as the eight digits |
| Ids.TextRoundTrip | api/id/id.go:141-249 | **Main.** UnmarshalText inverts MarshalTextTo for every id |
| Ids.TextOrder | api/id/id.go:141-180 | **Main.** text order is byte order |
| Ids.IdsSortByTimeAndCounter | api/id/id.go:62-85 | **Main.** ids of one machine sort exactly by time, then counter, as bytes and as text |
| Ids.IdsAreUnique | api/id/id.go:62-85 | two ids are equal if and only if time, machine and counter are |
| Ids.FlipInvolution | api/id/id.go:251-288 | the descending encoding is its own inverse |
| Ids.FlipReversesOrder | api/id/id.go:251-288 | **Main.** and reverses the order of texts of one length |
| Ids.EncodeDescending | api/id/id.go:279-288 | computes that encoding in its buffer, and panics exactly on more than 26 characters or a foreign character |
| Base64Url.RoundTrip | api/logs/s3/s3.go:272-272 | decoding inverts encoding for every byte string |
| CallIndex.InsertKeepsIndexed | api/logs/s3/s3.go:178-222 | inserting a call with a new id keeps the index complete and exact |
| CallIndex.FlippedCursor | api/logs/s3/s3.go:259-283 | how a flipped cursor of any length compares with flipped ids |
| CallIndex.PrefixSelects | api/logs/s3/s3.go:340-344 | the listing prefix selects exactly the keys of the app and path |
| CallIndex.KeysReverseIds | api/logs/s3/s3.go:267-283 | listed keys are in exactly the reverse order of the ids |
| CallIndex.ListedIffMatches | api/logs/s3/s3.go:318-351 | prefix and marker list a call if and only if the reference filter accepts it or its id extends a short cursor |
| CallIndex.ListedIsSomeCall | api/logs/s3/s3.go:346-353 | every key under the prefix belongs to an inserted call of that app and path |
| CallIndex.LookupFinds | api/logs/s3/s3.go:365-393 | taking a listed key apart leads back to its call |
| CallIndex.ListObjects | api/logs/s3/s3.go:346-356 | the least keys with the prefix, strictly after the marker, ascending |
| CallIndex.ListingIsReferencePage | api/logs/s3/s3.go:292-411 | the listed calls are the reference page if and only if the page size is zero or no call of the app and path extends the cursor |
| CallIndex.GetCalls | api/logs/s3/s3.go:292-411 | **Main.** on an exact index the page returned is the one and only reference page, under exactly that condition (always for 26-character cursors or none); errors exactly without an app, panics exactly on a malformed cursor |
| CallIndex.ShortCursorDiffers | api/logs/s3/s3.go:318-351 | any single call, with the first character of its id as cursor: S3 lists it and the reference does not |
| CallIndex.ReferencePageUnique | api/logs/mock.go:69-91 | there is only one reference page |
| CallIndex.Mock.GetCalls | api/logs/mock.go:69-91 | sorts the store in place and returns the reference page |
| Decimate.Average | api/agent/drivers/driver.go:205-229 | the mean of a block: shares of truncated times, wrapped sums of each metric divided by the count; nothing for an empty block |
| Decimate.MeanIsWithin | api/agent/drivers/driver.go:216-224 | the mean time lies within the block, up to the truncation of each share |
| Decimate.MeanOfTimes | api/agent/drivers/driver.go:216-224 | the mean time is that of all samples, up to the truncation of each share toward zero |
| Decimate.MeanOfMetrics | api/agent/drivers/driver.go:219-227 | each metric of the mean is the wrapped total over all samples, divided and rounded down |
| Decimate.BinMeans | api/agent/drivers/driver.go:258-263 | the window test of the loop against the arithmetic window number |
| Decimate.CourseKept | api/agent/drivers/driver.go:254-272 | a turn of the loop either records the whole next block or moves on to a later window; entries stay behind the read position |
| Decimate.FinishesIffHalts | api/agent/drivers/driver.go:250-272 | **Main.** the loop ends if and only if the window is at least 1 ns, or all times are equal, or at most two entries are wanted |
| Decimate.LoopsForever | api/agent/drivers/driver.go:250-272 | four samples on which it does not end |
| Decimate.DecimatedIsPartition | api/agent/drivers/driver.go:243-274 | **Main.** at most maxSamples entries, each the mean of one block of a contiguous partition, cut exactly where the window changes |
| Decimate.Decimate | api/agent/drivers/driver.go:243-274 | **Main.** the in-place loop ends and leaves exactly those entries in front, never overwriting an unread sample |
| JumpHash.LandingsDouble | api/runnerpool/ch_placer.go:84-85 | the k-th landing is at least 2^(k+1) - 2 |
| JumpHash.JumpMeans | api/runnerpool/ch_placer.go:85-85 | a zero divisor panics; otherwise the jump is by one more than the number of times the divisor goes into 2^31 |
| JumpHash.ThreeBuckets | api/runnerpool/ch_placer.go:80-88 | which of three buckets a key gets depends on whether its successor is above the middle |
| JumpHash.JumpConsistentHash | api/runnerpool/ch_placer.go:80-88 | **Main.** a bucket in [0, n) that is the last landing below n, -1 without buckets, a panic if and only if some landing below n is followed by a zero divisor, at most log2(n + 1) turns |
| JumpHash.PanicKey | api/runnerpool/ch_placer.go:84-85 | a key that divides by zero for every number of buckets |
| JumpHash.MinimalMovement | api/runnerpool/ch_placer.go:80-88 | **Main.** with more buckets a key stays or moves to a new bucket; from n to n + 1 it stays or moves to bucket n |
| JumpHash.RotationIsFair | api/runnerpool/ch_placer.go:38-59 | a rotation offers each runner at most once, and all of them if it runs out |
| JumpHash.ChRound | api/runnerpool/ch_placer.go:37-59 | **Main.** one round starts at the hash, is fair, stops at the first placed offer or at the deadline, and panics exactly if the hash does |
| JumpHash.NaivePlacer.Round | api/runnerpool/naive_placer.go:39-59 | which index each turn takes for any interference, and exactly when a round is exhausted, busy or panics; an undisturbed round below 2^63 attempts is fair too |
| SlotKey.SortKeys | api/agent/slots.go:314-320 | any iteration order of the map yields the same sorted keys |
| SlotKey.GetSlotQueueKey | api/agent/slots.go:280-346 | **Main.** the bytes hashed do not depend on the iteration order of either map |
| SlotKey.PartsRead | api/agent/slots.go:280-346 | all fields of a NUL-free call can be read off its bytes, up to where the config ends |
| SlotKey.SharedIsOtherReading | api/agent/slots.go:312-346 | another call with the same bytes is another place where the config may end |
| SlotKey.SharedIffAmbiguous | api/agent/slots.go:312-346 | **Main.** a NUL-free call shares its bytes with another one if and only if it has an empty config key and its config values followed by its annotation keys ascend strictly, or it has no config and its annotation values before the first empty one ascend strictly |
| SlotKey.KeyRoundTrip | api/agent/slots.go:280-346 | **Main.** a parser gets the whole call back from the bytes, if strings are NUL-free and annotation values non-empty; config keys may be empty |
| SlotKey.KeyInjective | api/agent/slots.go:280-346 | **Main.** two such calls have the same bytes if and only if they agree in every field |
| SlotKey.NulInValueExample | api/agent/slots.go:322-327 | the config a = "b NUL c NUL d" against a = b, c = d |
| SlotKey.NulIsShared | api/agent/slots.go:280-346 | **Main.** every call with a NUL in its app, path, image, format, config or annotations shares its bytes with another call |
| SlotKey.TwoEntriesAreShared | api/agent/slots.go:322-346 | so does every call with two entries in its config or in its annotations, with a call that holds NULs |
| LogWriters.LinesAreTheSplit | api/agent/func_logger.go:147-161 | lines and rest are the newline split of a text: nothing lost or added |
| LogWriters.WritesFollowTheStream | api/agent/func_logger.go:144-165 | **Main.** for every chunking and every pattern of failing writes, what went out is a run of leading lines of the stream and the buffer holds what follows |
| LogWriters.ChunksDoNotMatter | api/agent/func_logger.go:144-165 | without failures exactly the complete lines of the whole stream went out |
| LogWriters.ClosedOutput | api/agent/func_logger.go:167-180 | after Close the whole stream is out, one line per write, with a final newline |
| LogWriters.LineWriter.Write | api/agent/func_logger.go:144-165 | emits the complete lines up to the first failure, keeps the rest, reports a full write, or what the failed write reported |
| LogWriters.LineWriter.Close | api/agent/func_logger.go:167-180 | emits the unfinished line with a newline |
| LogWriters.LimitIgnoresChunks | api/agent/func_logger.go:193-218 | **Main.** every chunking stores the first max bytes of the stream, plus one notice if and only if the stream reaches max; nothing for a limit of zero or less |
| LogWriters.LimitWriter.Write | api/agent/func_logger.go:193-218 | stores up to the limit, adds the notice once, always reports a full write |
| LogWriters.FuncLogger.Write | api/agent/func_logger.go:96-104 | **Main.** over any sequence of writes, with a logger that never fails, the lines out are the newline split and the limited buffer the limited form of one and the same stream; with one that fails, the limited buffer holds the chunks that passed |
| LogWriters.FuncLogger.Close | api/agent/func_logger.go:106-114 | the unfinished line goes out, so that with a logger that never fails the whole stream is out, and both buffers are reset |
| RouteList.Store.Find | api/datastore/mock.go:114-121 | the route with the app and path, if there is one |
| RouteList.Store.InsertRoute | api/datastore/mock.go:149-159 | keeps (app, path) unique; fails exactly for an unknown app or an existing route |
| RouteList.Store.RemoveRoute | api/datastore/mock.go:176-184 | removes exactly that route, fails exactly if it is missing, keeps uniqueness |
| RouteList.Store.GetRoutesByApp | api/datastore/mock.go:129-147 | sorts in place and returns the next matching routes behind the cursor, by path |
| RouteList.Store.List | api/server/routes_list.go:12-37 | one request: the page behind the decoded cursor and the cursor that follows it |
| RouteList.PerPage | api/server/server.go:920-926 | the page size is always between 1 and 100 |
| RouteList.CursorAfterPage | api/server/routes_list.go:26-30 | there is a next cursor exactly after a full page, and it decodes to the last path |
| RouteList.WalkListsEverything | api/server/routes_list.go:12-37 | **Main.** following the cursors until there is none lists every matching route with a non-empty path exactly once in ascending path order |
| RouteList.WalkEnds | api/server/routes_list.go:26-30 | **Main.** the number of pages with a next cursor is bounded by the routes, so following them ends |
| RouteList.FollowCursors | api/server/routes_list.go:12-37 | **Main.** a client that follows next_cursor on the store until there is none comes to an end and has seen every matching route with a non-empty path exactly once, in ascending path order |

## Left out

- Docker, gRPC transport, TLS, HTTP handlers, SQL, tracing, metrics and environment parsing: input and output or code outside the repository. Clocks, contexts, capacity answers and network losses are steps or parameters.
- Concurrent objects are modelled twice: as classes whose methods are single critical sections, and as state machines on values for the interleavings. The classes do not model scheduling themselves.
- lb_agent.go sessions: the overload branch ends a call and continues, so sessions do not balance there; the local agent is modelled.
- Engagement.LegalIffNoLateWrite: one writer at a time, as in the dispatch goroutine; which of two waiting senders goes first is left open, as the language leaves it.
- Fidelity of the request body from load balancer to runner, the pipe that feeds it to the function, headers and status values: data frames carry only their end-of-file flag.
- Placement.AtMostOneSubmit: timeouts of the placers are the step GiveUp, enabled between attempts; backoff durations are not modelled.
- ResourceRuns.NoLostWakeup: says that a waking step is enabled, not that the scheduler takes it. Reading the machine's memory and CPU, and clamping them to the configuration, are not modelled. A request's size is the wrapped product in bytes, which is faithful exactly below 2^44 megabytes (`Resource.BytesFaithful`).
- HotSlots.StepKeepsInv: liveness of a queued slot's container is out, since a failed Freeze leaves the token queued; cold containers and image pulls are not modelled, nor is `isNewContainerNeeded`.
- Sessions.WaitGroup.CloseGroup: the method is the lock region up to the first wait; waiting and waking are steps of the state machine. CloseGroupNB is the goroutine form of the same wait. The runs use the unit delta of all callers.
- TrackerUnderflow.DeletesOnlyIdleQueues: a tracker is active once its enter section ran; the time between looking a queue up and the first update of a tracker is not covered by the source's locks.
- Trackers.SlotQueueMgr.DeleteSlotQueue: deletes by key, as the source does; if the key was registered again for another queue in the meantime, it is that one that goes.
- Bolt.BoltDbMQ.Push: jobs without delay and fewer than 2^64 - 2 pushes per priority; delayed jobs re-enter under keys of another sequence. The JSON form of a job is a value.
- Bolt.BoltDbMQ.Delete: the job-id mapping stays behind after expiry, so a late Delete succeeds without deleting; priorities outside 0-2 are not modelled.
- The in-memory and Redis queues.
- Ids.TextRoundTrip: decoding of texts outside the alphabet is not claimed to mean anything.
- CallIndex.GetCalls: no time bounds (they filter after the page was fetched), app ids without slash, stored ids of 26 alphabet characters, page sizes as ListObjects accepts them; failed uploads are not modelled.
- Decimate.Decimate: the precondition is the exact condition under which the source's loop ends. Sharing of one metrics map by two samples, nil maps and instants outside the int64 nanosecond range are not modelled.
- JumpHash.JumpConsistentHash: siphash is an arbitrary key; balance between buckets is not claimed, since every jump at least doubles. Fewer than 2^31 runners.
- JumpHash.NaivePlacer.Round: with other calls in between, indexes may repeat; fairness is stated for undisturbed rounds.
- SlotKey.SharedIffAmbiguous: the partner is NUL-free too. Which NUL-free calls with at most one entry in each map share their bytes with a call that holds NULs is not characterised; KeyInjective and NulIsShared settle the calls on either side.
- SlotKey.GetSlotQueueKey: up to the bytes handed to SHA-1, which is not modelled.
- LogWriters.LimitWriter.Write: the buffer behind it takes every byte; partial writes of other writers are not modelled.
- RouteList.Store.List: cursor texts are base64url; what Go returns for malformed text is not modelled. UpdateRoute does not change app or path and is left out, as are apps.
