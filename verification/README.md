# A verified model of the load-test machinery

This project models the core of a distributed load tester for Tendermint networks and proves how it behaves over whole
runs. A coordinator waits for a fixed number of workers, starts them together, and adds up the transaction counts they
report. Each worker runs a group of transactors, one per endpoint and connection, which send transactions in batches.
Before all that, the coordinator may crawl the network to find the endpoints.

The model has two layers. Code that changes things step by step is a class or a method with the loops of the source
(`Transactor`, `TransactorGroup`, `Coordinator`, `RemoteWorker`, `Worker`, `SimpleSocket`, `Crawl`, and the key-value
client in `KVStore`). What those methods compute is tied to functions and transition systems on values
(`TransactorModel`, `GroupModel`, `CoordinatorModel`, `Connection`, `Protocol`, `CrawlModel`), about which the theorems
are proved. For the two ends of a connection that tie is a refinement: a `RemoteWorker` and a `Worker` each carry the
protocol's connection as ghost state, their predicate `Mirrors` says that what they have written, read and passed on is
what that connection holds, and that it was reached by steps of `Connection`; `ConnectionRuns` shows that these are
actions of `Protocol`.

| file | content |
|---|---|
| `Basics.dfy` | sums over sequences and maps |
| `LoadConfig.dfy`, `ConfigCheck.dfy` | configuration values, the `uint64` estimate, the validation chains |
| `KVStore.dfy` | the binomial table, the suffix search, random strings, transaction layout |
| `TransactorModel.dfy`, `Transactor.dfy` | the send loop |
| `GroupModel.dfy`, `TransactorGroup.dfy` | aggregation over a group of transactors, with reports taken at any moment |
| `CoordinatorModel.dfy`, `CoordinatorProofs.dfy`, `Coordinator.dfy` | the coordinator's maps and its two `select` loops, and what these come to in terms of the requests alone |
| `Connection.dfy`, `ConnectionProofs.dfy`, `RemoteWorker.dfy`, `Worker.dfy` | one connection: both ends and both wires |
| `ConnectionRuns.dfy` | runs of one connection as either end drives it, and why they are runs of the system |
| `Flow.dfy` | how reports travel from a group into the coordinator's totals |
| `Protocol.dfy`, `ProtocolProofs.dfy` | the whole system as a labelled transition system, and its invariant |
| `ProtocolTheorems.dfy`, `ProtocolWitness.dfy` | theorems over all runs; runs that exist |
| `SimpleSocket.dfy` | the FIFO writer with flush on stop |
| `CrawlModel.dfy`, `Crawl.dfy` | the peer crawl on values and on heap-allocated records |

## The protocol

A state of `Protocol` holds the coordinator's phase and maps, any number of connections, and the three separate queues
for register requests, unregister requests and updates. A connection holds the program counters of the `Worker` and of
the `remoteWorker`, the control queue, the transactor group, and two wires. A wire is the list of all frames ever put on
it and the number of frames read. Interleaving, the choice of `select`, timeouts, failing writes, frames that are lost
or arrive although the write was reported as failed, and reads that swallow a frame are all left to the next action.
`expected` may be any number from 1 on, the number of connections is unbounded, IDs may collide, and a worker that was
rejected may try again on another connection.

The invariant (`Protocol.Inv`) says of each started worker that its reports in flight, oldest first, form a chain
between what the coordinator has recorded and the level below which its group can no longer report. From it follow
the start barrier, success safety, conservation, completion accounting and the telescoping of progress increments.

## Where the code does less than its documentation promises

- **`count` caps what is recorded, not what is sent.** The deadline `break` in `sendTransactions` leaves before the
  loop counter is incremented, so that transaction is on the wire but not in `txCount`
  (`pkg/loadtest/transactor.go:263-276`). `TransactorModel.WritesAreNotCapped` gives runs of any length in which every
  batch is cut short and nothing is ever recorded; the cap never stops such a run, which goes on until `select` picks
  the time limit. `TransactorModel.WriteCapExactly` says for which configurations the cap bounds the writes of every
  run, when any ticker may be picked at any turn: only for those that never write, hence for no validated one.
  `TransactorModel.PunctualWritesAreCapped` says that it does in every run without such a break. What is recorded is
  capped in every run (`TransactorModel.CountCap`).
- **Minimum connectivity is not enforced in a round that finds no new peers.** Such a round keeps the old records,
  whose `SuccessfullyQueried` flags have just been reset, so the compared value is the number of known peers
  (`pkg/loadtest/tm_network_info.go:85-95`, `124-126`). `CrawlModel.ConnectivityNotEnforced` gives a crawl that ends
  this way for any two supplied hosts; `CrawlModel.GateExactly` says, for all inputs, exactly when the gate opens.
- **The estimate of transactions wraps.** `Rate * Time` is taken in `uint64` (`pkg/loadtest/config.go:120`).
  `KVStore.WrappedEstimateAccepted` gives a configuration that validation accepts although it allows more transactions
  than there are key suffixes; `LoadConfig.EstimateExactly` proves that the estimate is right if and only if the product
  is below 2^64, and `KVStore.KeyspaceCovers` that the suffixes then suffice.
- **A successful load test may not be recognised.** Updates and unregister requests travel on different channels, so a
  worker's unregister request may overtake its queued Completed update, which is then ignored
  (`pkg/loadtest/coordinator.go:271-274`, `304-308`). `ProtocolWitness.CompletionCanBeOvertaken` gives, for
  every number of workers and every valid configuration, a run in which this happens to a worker that finished cleanly.
  `ProtocolTheorems.IgnoredWasOvertaken` proves that nothing else makes the coordinator ignore a Completed update,
  `ProtocolTheorems.IgnoredRulesOutSuccess` that the run can then no longer succeed, and
  `ProtocolTheorems.SuccessExactly` that, once all workers' updates are dealt with, it has succeeded if and only if none
  was ignored. `CoordinatorModel.ReceiveLoopSucceeds` says exactly when the coordinator's loop alone succeeds.

## Model

| member | source | states |
|---|---|---|
| `ProtocolProofs.StepInv` | pkg/loadtest/coordinator.go:152-440 | every action of coordinator, remoteWorkers and Workers, in any order, keeps the invariant of the whole system |
| `ProtocolProofs.RunInv` | pkg/loadtest/coordinator.go:152-192 | hence every state of every run satisfies it, for every number of expected workers and every configuration |
| `ProtocolTheorems.StartBarrier` | pkg/loadtest/coordinator.go:203-207 | a worker whose transactors run was, at an earlier moment, one of exactly the expected number of distinct IDs in the workers map at once; all such workers hold the same validated configuration |
| `ProtocolTheorems.RosterWasWorkers` | pkg/loadtest/coordinator.go:423-432 | the set of workers being started is the workers map of one earlier moment and is never replaced afterwards |
| `ProtocolTheorems.DownwardDiscipline` | pkg/loadtest/remote_worker.go:101-185 | on every connection at most one Testing is sent, directly after an Accepted that carries the configuration, and nothing at all follows a Rejected or a Failed |
| `ProtocolTheorems.SuccessSafety` | pkg/loadtest/coordinator.go:288-308 | success implies that exactly the expected number of distinct workers was started together, each sent exactly one Completed, and each one's group waited without an error |
| `ProtocolTheorems.SendFailureRulesOutSuccess` | pkg/loadtest/worker.go:261-264 | in every run, one transactor of one worker that ends with an error, or one cancellation of a group that is not yet collected (by an interrupt or a progress report that cannot be written), rules success out for good |
| `ProtocolTheorems.EndToEndConservation` | pkg/loadtest/coordinator.go:368-402 | on success the published transaction and byte totals equal the sums, over the started workers and all their transactors, of what each transactor finally recorded |
| `ProtocolTheorems.PublishedBounds` | pkg/loadtest/coordinator.go:276-295 | on success the published bytes cover `Size` for each published transaction, and the grand total respects `Count` per transactor |
| `ProtocolTheorems.CompletionAccounting` | pkg/loadtest/coordinator.go:269-308 | in every reachable state a Completed update that was passed on is in exactly one place (counted, still queued and last, or ignored); one that was not is nowhere; the count equals the counted workers and never exceeds the expected number |
| `ProtocolTheorems.UpdatesAreReports` | pkg/loadtest/coordinator.go:284-302 | with real Workers every queued update is a progress or completion report of a started worker under its own ID, so the branches for failed and unexpected states are unreachable through updates |
| `ProtocolTheorems.MissingHasDeparted` | pkg/loadtest/coordinator.go:304-308 | while updates are received, a started worker is absent from the map only if its own unregister request, sent after a clean completion, was dequeued earlier in that phase |
| `ProtocolTheorems.IgnoredWasOvertaken` | pkg/loadtest/coordinator.go:271-274 | a Completed update is ignored only because the unregister request of the same connection was dequeued before it |
| `ProtocolTheorems.IgnoredRulesOutSuccess` | pkg/loadtest/coordinator.go:271-295 | once a Completed update has been ignored no continuation of the run succeeds |
| `ProtocolTheorems.SuccessExactly` | pkg/loadtest/coordinator.go:271-308 | when every started worker's Completed has been passed on and taken off the queue, the coordinator has succeeded if and only if it ignored none |
| `ProtocolTheorems.ValidatedSuccess` | pkg/loadtest/config.go:131-145 | a test with a validated coordinator configuration succeeds only with that many workers, at least one, each with a transactor per endpoint and connection |
| `ProtocolTheorems.ProgressTelescopes` | pkg/loadtest/coordinator.go:380-402 | all increments behind the published rates are non-negative and add up to the last published totals |
| `ProtocolTheorems.ProgressPublishes` | pkg/loadtest/coordinator.go:310-311 | a progress tick publishes the sums of what is recorded at that moment and changes nothing else |
| `ProtocolTheorems.AllToldFailed` | pkg/loadtest/coordinator.go:434-440 | in every run that has failed, every worker that is still registered has been sent the control message Failed |
| `ProtocolTheorems.StopIsHeeded` | pkg/loadtest/remote_worker.go:181-182 | a stop signal lets an event loop that waits or receives end, with an error |
| `ProtocolWitness.SuccessIsPossible` | pkg/loadtest/coordinator.go:288-295 | for every number of workers and every valid configuration some run succeeds with one transaction of every transactor in the totals, so the statements about success are not empty |
| `ProtocolWitness.CompletionCanBeOvertaken` | pkg/loadtest/coordinator.go:304-308 | for every number of workers and every valid configuration some run ignores the Completed update of a worker that did everything right |
| `ConnectionProofs.StepOk` | pkg/loadtest/worker.go:63-301 | every step of a Worker, its group or its remoteWorker keeps the two wires legal and the far end's knowledge consistent, whatever happens to each write |
| `ConnectionProofs.CtrlOk` | pkg/loadtest/remote_worker.go:170-197 | taking a control message, before or after the start, keeps the connection consistent |
| `Flow.StepFlow` | pkg/loadtest/worker.go:246-297 | no step of a connection breaks the order of its reports in flight: they stay between what is recorded and what the group can still report |
| `Flow.StepIdle` | pkg/loadtest/remote_worker.go:170-185 | a connection that the coordinator has not started cannot start itself |
| `Flow.ForwardFlow` | pkg/loadtest/remote_worker.go:199-213 | passing a frame on moves one report from the wire to the update queue and loses or reorders nothing |
| `Flow.RecordExact` | pkg/loadtest/coordinator.go:276-282 | for reports that do not decrease, the guards on positive counts lose nothing: the recorded totals become the reported ones |
| `Flow.TakeTesting` | pkg/loadtest/coordinator.go:284-286 | dequeuing a progress report, recorded or ignored, keeps the chain of reports |
| `Flow.TakeCompleted` | pkg/loadtest/coordinator.go:288-295 | the Completed update is the last report of its connection in flight, and recording it records the group's final totals |
| `CoordinatorModel.WaitLoopFills` | pkg/loadtest/coordinator.go:203-207 | waiting ends with a full house exactly when the workers map has the expected size, which it never exceeds |
| `CoordinatorProofs.WaitLoopExactly` | pkg/loadtest/coordinator.go:194-224 | waiting ends as soon as the IDs that have asked and not left since are as many as expected, or at an interrupt before that, and not otherwise; the map then holds, for each of them, the connection of the first request since its last departure |
| `CoordinatorProofs.FullMeansPresent` | pkg/loadtest/coordinator.go:203-212 | the load test is started with exactly the IDs that have asked to be registered and have not left since |
| `CoordinatorProofs.ReceiveFollows` | pkg/loadtest/coordinator.go:269-282 | while a worker stays registered, what is recorded for it is what its last positive report said |
| `CoordinatorProofs.TickPublishes` | pkg/loadtest/coordinator.go:310-311 | after every progress tick the published totals are the sums over the maps |
| `CoordinatorModel.ReceiveLoopSucceeds` | pkg/loadtest/coordinator.go:249-321 | receiving succeeds if and only if a harmless prefix of what the channels deliver holds enough Completed updates from IDs still registered; the published totals are then the sums of the maps |
| `Coordinators.Coordinator.RegisterRemoteWorker` | pkg/loadtest/coordinator.go:339-353 | refuses when full or when the ID is present, otherwise adds it with zero totals; nothing else changes |
| `Coordinators.Coordinator.UnregisterRemoteWorker` | pkg/loadtest/coordinator.go:359-362 | removes by ID alone and keeps the totals |
| `Coordinators.Coordinator.LogTestingProgress` | pkg/loadtest/coordinator.go:368-402 | the accumulator loops, in any map order, compute the sums over both maps |
| `Coordinators.Coordinator.WaitForWorkers` | pkg/loadtest/coordinator.go:194-224 | the object's loop does what `WaitLoop` says for every sequence of channel events |
| `Coordinators.Coordinator.ReceiveTestingUpdates` | pkg/loadtest/coordinator.go:249-321 | the object's loop does what `ReceiveLoop` says for every sequence of channel events |
| `ConnectionRuns.RemoteMovesAreActions` | pkg/loadtest/remote_worker.go:101-220 | whatever a remoteWorker does is an action of the whole system that changes its connection in the same way and queues the same reports |
| `ConnectionRuns.WorkerMovesAreActions` | pkg/loadtest/worker.go:63-297 | whatever a Worker does is an action of the whole system that changes its own connection and nothing else |
| `RemoteWorkers.RemoteWorker.ReadID` | pkg/loadtest/remote_worker.go:143-154 | succeeds exactly on a first frame with a non-empty ID, which becomes the ID; the object stays in step with the protocol's connection, as after every method below |
| `RemoteWorkers.RemoteWorker.Register` | pkg/loadtest/remote_worker.go:117-121 | Accepted, with the configuration, is written exactly after the coordinator agreed; without that, or without its acknowledgement, Rejected follows |
| `RemoteWorkers.RemoteWorker.WaitForStart` | pkg/loadtest/remote_worker.go:170-185 | the first control message or stop signal decides; the event loop goes on if and only if that is a Testing, and exactly that control message is written |
| `RemoteWorkers.RemoteWorker.Receive` | pkg/loadtest/remote_worker.go:201-213 | one frame is read; unless it is a Failed it is passed on, and a Completed ends the loop without an error |
| `RemoteWorkers.RemoteWorker.TakeControl` | pkg/loadtest/remote_worker.go:193-197 | after the start only a Failed control message has an effect: it is written, and the loop ends with an error |
| `RemoteWorkers.RemoteWorker.ReceiveTestingUpdates` | pkg/loadtest/remote_worker.go:187-220 | exactly the frames read before the first turn that is not harmless are passed on, and a Completed read in it; it ends without an error if and only if some turn reads a Completed and all before it are harmless, and goes on if and only if all turns are |
| `RemoteWorkers.RemoteWorker.EventLoop` | pkg/loadtest/remote_worker.go:101-140 | the deferred unregister carries no error if and only if an ID arrived, the coordinator agreed, the Accepted was acknowledged, the first control message was Testing and a Completed was then read after harmless turns only; what is passed on is given in every case, and the downward wire is legal |
| `Workers.Worker.ReadReply` | pkg/loadtest/worker.go:185-213 | judges the first frame: accepted exactly if it is an Accepted with a valid configuration and nothing was cancelled; a Failed is written exactly if an Accepted lacks a valid configuration |
| `Workers.Worker.Register` | pkg/loadtest/worker.go:179-214 | succeeds if and only if the hello was acknowledged and the first frame is an Accepted with a valid configuration that arrives before a cancellation |
| `Workers.Worker.WaitForStart` | pkg/loadtest/worker.go:216-244 | the first poll that finds a frame or notices a cancellation decides; the worker goes on if and only if that is a Testing frame, and otherwise writes Failed |
| `Workers.FollowsRun` | pkg/loadtest/worker.go:246-264 | every run of a transactor group, up to its end, is one that the worker lets it have |
| `Workers.Worker.ReportProgress` | pkg/loadtest/worker.go:276-287 | writes the group's current totals, and if that write fails every transactor of the group is told to stop with an error |
| `Workers.Worker.Wait` | pkg/loadtest/worker.go:254-264 | the group takes exactly the turns it is given until it has ended, and exactly its progress reports are written meanwhile |
| `Workers.Worker.Finish` | pkg/loadtest/worker.go:261-272 | after the group has ended, one Completed carries the sums of all its transactors' final counts if and only if the group ended without an error; every failure is followed by a Failed |
| `Workers.Worker.ExecuteLoadTest` | pkg/loadtest/worker.go:246-297 | with one transactor per endpoint and connection, ends without an error if and only if every dial succeeded, the group ended without an error, and the Completed was acknowledged; all frames written are given |
| `Workers.Worker.Run` | pkg/loadtest/worker.go:63-96 | every step is a step of the protocol; transactors start if and only if the hello was acknowledged, an Accepted with a valid configuration and then a Testing were read, and every dial succeeded; the upward wire is legal, and a Completed gets out only after a clean group run, with its final totals |
| `GroupModel.StepInv` | pkg/loadtest/transactor_group.go:98-187 | batches, tracking, joins, cancellations and reports with separately locked reads keep every tracked count below the true one and never lower what may be reported next |
| `GroupModel.ReportsOverRuns` | pkg/loadtest/transactor_group.go:178-207 | in every run, reports never decrease in either component, and the reported bytes cover `Size` for each reported transaction |
| `GroupModel.WaitedTotals` | pkg/loadtest/transactor_group.go:98-125 | when `Wait` has returned, the tracked totals are the sums of the transactors' final counts, whatever was tracked before |
| `GroupModel.CancelFailsWait` | pkg/loadtest/transactor_group.go:90-125 | once a group is cancelled while some transactor has not been collected, `Wait` can only return an error |
| `GroupModel.WaitErrExactly` | pkg/loadtest/transactor_group.go:98-125 | in every run, `Wait` returns an error if and only if some transactor ended with an error of its own or the group was cancelled before it was collected completely |
| `GroupModel.TrackCollects` | pkg/loadtest/transactor_group.go:165-170 | tracking makes the recorded statistics of one transactor known and touches nothing else |
| `GroupModel.FreshReportIsExact` | pkg/loadtest/transactor_group.go:178-187 | when all transactors have been tracked since they last recorded anything, a report is the true total |
| `TransactorGroups.TransactorGroup.Add` | pkg/loadtest/transactor_group.go:49-60 | appends a fresh transactor whose identifier is its position; if dialling fails all opened connections are closed |
| `TransactorGroups.TransactorGroup.AddAll` | pkg/loadtest/transactor_group.go:62-71 | succeeds if and only if every dial does, and then holds endpoints × connections distinct fresh transactors with identifiers 0, 1, 2, ... |
| `TransactorGroups.TransactorGroup.TrackTransactorProgress` | pkg/loadtest/transactor_group.go:165-170 | overwrites the entries of one transactor and no others |
| `TransactorGroups.TransactorGroup.TotalTxs` | pkg/loadtest/transactor_group.go:189-197 | the accumulator loop computes the sum over the map in any order |
| `TransactorGroups.TransactorGroup.TotalBytes` | pkg/loadtest/transactor_group.go:199-207 | the accumulator loop computes the sum of the byte entries in any order |
| `TransactorGroups.TransactorGroup.Wait` | pkg/loadtest/transactor_group.go:98-125 | nil if and only if no transactor holds an error, and otherwise the error of one of them; both tracked totals are then the sums of the transactors' own final statistics |
| `TransactorGroups.TransactorGroup.CloseAll` | pkg/loadtest/transactor_group.go:209-213 | closes every transactor of the group and nothing else |
| `TransactorGroups.SumPadded` | pkg/loadtest/transactor_group.go:189-207 | adding up a statistics map in any order gives the sum over the identifiers, absent ones counting zero |
| `TransactorGroups.BatchIsStep` | pkg/loadtest/transactor.go:247-299 | what the send loop does to a transactor's statistics in a batch is a step of the group model |
| `TransactorGroups.EndIsStep` | pkg/loadtest/transactor.go:116-120 | a transactor that has stopped hands exactly its stop error to the group |
| `TransactorGroups.TrackIsStep` | pkg/loadtest/transactor_group.go:165-170 | tracking in the object's maps is tracking in the group model |
| `Transactors.Transactor.SendTransactions` | pkg/loadtest/transactor.go:247-278 | the object's batch loop writes the frames and records the counts of `RunBatch`, whose every outcome `TransactorModel.BatchExactly` gives, on every way out |
| `Transactors.Transactor.SendLoop` | pkg/loadtest/transactor.go:164-215 | the object's loop does what `SendLoop` says for every environment |
| `Transactors.Transactor.TakeTurn` | pkg/loadtest/transactor.go:186-213 | one pass of the loop: the cap is checked before the event, the stop flag after it |
| `Transactors.Transactor.SetStop` | pkg/loadtest/transactor.go:238-245 | sets the flag, and replaces the error only by another error |
| `Transactors.Transactor.Cancel` | pkg/loadtest/transactor.go:111-114 | sets the flag and the cancellation error |
| `Transactors.Transactor.TrackSentTxs` | pkg/loadtest/transactor.go:287-299 | adds to both statistics |
| `Transactors.Transactor.ReportProgress` | pkg/loadtest/transactor.go:306-317 | reports the current statistics and changes none of them |
| `Transactors.Transactor.Close` | pkg/loadtest/transactor.go:325-334 | puts at most a Close frame on the wire |
| `TransactorModel.BatchExactly` | pkg/loadtest/transactor.go:247-278 | a batch is for `rate` transactions, or what is left up to the cap if that is less; exactly those before the first that fails or is late are recorded, exactly these and a late one are on the wire, and the stop flag is set, with an error, if and only if one failed |
| `TransactorModel.PunctualBatchIsFull` | pkg/loadtest/transactor.go:250-277 | a batch in which nothing fails or is late sends the full rate, or what is left up to the cap |
| `TransactorModel.TurnStopsExactly` | pkg/loadtest/transactor.go:185-214 | the connection is closed at the end of a turn if and only if the loop had been told to stop, or reaches its cap or time limit, or a batch or ping fails, or somebody cancels; with which error; and what a progress or ping tick does |
| `TransactorModel.BatchAccounting` | pkg/loadtest/transactor.go:263-276 | in every batch, however it ends, frames written are recorded transactions plus one for a deadline break, and bytes are those of the frames |
| `TransactorModel.RunKeepsAccounts` | pkg/loadtest/transactor.go:185-214 | the accounts balance between any two turns of every run, and reports to the callback never decrease |
| `TransactorModel.BatchAccountingOverRuns` | pkg/loadtest/transactor.go:247-299 | with a fixed-size client `txBytes` is `Size` times the frames written, and these are `txCount` plus the batches ended by the deadline; they equal `txCount` if and only if there was no such batch |
| `TransactorModel.CountCap` | pkg/loadtest/transactor.go:185-254 | whenever `Count` is positive, every run keeps `txCount` within it and `toSend` non-negative |
| `TransactorModel.WritesAreNotCapped` | pkg/loadtest/transactor.go:263-276 | a false promise: for every n there is a run that writes n transactions, records none and goes on |
| `TransactorModel.WriteCapExactly` | pkg/loadtest/transactor.go:247-276 | with tickers picked freely, `Count` bounds the writes of all runs if and only if the configured rate never sends anything |
| `TransactorModel.PunctualWritesAreCapped` | pkg/loadtest/transactor.go:272-275 | in a run without a deadline break the cap does bound the writes |
| `TransactorModel.StopWithinOneTurn` | pkg/loadtest/transactor.go:185-214 | once the stop flag is set exactly one more select event completes |
| `TransactorModel.ErrorsAreSticky` | pkg/loadtest/transactor.go:232-245 | no later stop clears a recorded error, and statistics, wire and reports only grow |
| `TransactorModel.CloseFrameIsLast` | pkg/loadtest/transactor.go:325-334 | nothing follows the Close frame, as section 5.5.1 of RFC 6455 requires |
| `TransactorModel.CleanStop` | pkg/loadtest/transactor.go:185-214 | a loop that ends without an error reached its cap or its time limit |
| `SimpleSockets.FramesInOrder` | pkg/loadtest/websockets.go:267-271 | the frames on the wire are those of the successful writes, each standing behind exactly the successful writes before it |
| `SimpleSockets.OrderKept` | pkg/loadtest/websockets.go:160-170 | a successful write's frame stands strictly before those of later writes |
| `SimpleSockets.SimpleSocket.HandleWrite` | pkg/loadtest/websockets.go:267-271 | each dequeued write gets exactly one response, nil exactly when its frame is on the wire |
| `SimpleSockets.SimpleSocket.Flush` | pkg/loadtest/websockets.go:275-282 | attempts exactly what was queued when the queue was counted; what arrives meanwhile stays queued |
| `SimpleSockets.SimpleSocket.Close` | pkg/loadtest/websockets.go:273-286 | everything queued when the queue is counted is attempted and answered before the Close frame, and no data frame follows it |
| `SimpleSockets.SimpleSocket.Run` | pkg/loadtest/websockets.go:148-171 | up to the stop signal every arrival is kept in order, and each time a queued write is taken exactly the oldest is attempted and answered with its outcome |
| `SimpleSockets.SimpleSocket.Enqueue` | pkg/loadtest/websockets.go:226-231 | a request is queued behind all earlier ones |
| `SimpleSockets.SimpleSocket.AwaitWrite` | pkg/loadtest/websockets.go:232-238 | a nil result of `Write` implies that the frame is on the wire, also for writes answered by the flush of a socket that has closed |
| `CrawlModel.RoundExactly` | pkg/loadtest/tm_network_info.go:85-90 | if the known peers that answer and the addresses they list are more than the known peers, they are known afterwards, with what each answered; otherwise the known peers stay, none as successfully queried |
| `CrawlModel.AllAnswersAreHeard` | pkg/loadtest/tm_network_info.go:85-90 | if every known peer answers, all stay known and every address any of them lists becomes known |
| `CrawlModel.CrawlDiscovers` | pkg/loadtest/tm_network_info.go:74-98 | in a network whose peers all answer, every peer within n hops of a supplied one is known after n rounds |
| `CrawlModel.GateExactly` | pkg/loadtest/tm_network_info.go:85-95 | exactly when the crawl may stop: in a round that hears of more peers than are known, by their number and by the neighbour counts of all that answer; in any other, by the number of known peers alone |
| `CrawlModel.StalledMinimum` | pkg/loadtest/tm_network_info.go:231-244 | in a round that does not grow, the tested value is exactly the number of known peers, whatever was answered |
| `CrawlModel.GateByMinimum` | pkg/loadtest/tm_network_info.go:91-95 | comparing with the minimum is comparing with the map size and every neighbour count |
| `CrawlModel.ConnectivityNotEnforced` | pkg/loadtest/tm_network_info.go:85-95 | a false promise: for any two supplied hosts that know only each other, a crawl that asks for two connections each ends successfully |
| `CrawlModel.CrawlSound` | pkg/loadtest/tm_network_info.go:74-98 | over all rounds every known address is reachable from a supplied one through reports of successfully queried peers, and the number of known peers never decreases |
| `CrawlModel.FoundPeersReachable` | pkg/loadtest/tm_network_info.go:60-98 | the same from the supplied peers on, with at least the demanded number of peers at the end |
| `CrawlModel.UncappedIsAll` | pkg/loadtest/tm_network_info.go:194-229 | an uncapped selection returns exactly the endpoints of all eligible peers, each once |
| `CrawlModel.SelectedAsAsked` | pkg/loadtest/tm_network_info.go:209-218 | a "supplied" selection offers only endpoints of supplied peers, a "discovered" one only of others, every one only of known peers |
| `CrawlModel.SelectedAsMany` | pkg/loadtest/tm_network_info.go:194-229 | a selection has as many endpoints as there are known peers of the kind asked for, or as the cap allows |
| `CrawlModel.SelectionsPartition` | pkg/loadtest/tm_network_info.go:194-229 | of three uncapped selections, the endpoints returned for "supplied" and for "discovered" are disjoint and together those returned for "any", whatever the map orders |
| `Crawl.Supply` | pkg/loadtest/tm_network_info.go:50-72 | fails exactly if some host does not resolve; otherwise there is exactly one new record per distinct host |
| `Crawl.ResolvePeerMap` | pkg/loadtest/tm_network_info.go:175-192 | for every map order: the keys are the input keys and all reported neighbours, queried peers keep their own record, only the others get stubs |
| `Crawl.GetNetworkPeers` | pkg/loadtest/tm_network_info.go:113-173 | the caller's records are reset in place even when the round fails; the answers go into new records, one under each record's own address |
| `Crawl.GetMinPeerConnectivity` | pkg/loadtest/tm_network_info.go:231-244 | the running minimum, in any order, is the least of the map size and the non-empty neighbour counts of queried peers |
| `Crawl.FilterPeerMap` | pkg/loadtest/tm_network_info.go:194-229 | with canonical addresses, in any order: no duplicates, only eligible endpoints, and exactly as many as the cap and the eligible peers allow; uncapped, it fails if and only if some address does not parse |
| `Crawl.CrawlRounds` | pkg/loadtest/tm_network_info.go:74-109 | the loop over heap records computes the value-level crawl and writes only to its own copies and new records |
| `Crawl.WaitForNetworkPeers` | pkg/loadtest/tm_network_info.go:29-109 | the whole crawl succeeds as the value-level crawl does, selects among what it finds, and leaves the supplied records as they were made |
| `KVStore.TableIsBinomial` | pkg/loadtest/client_kvstore.go:19-36 | every table entry but the first is a binomial coefficient over 62 letters |
| `KVStore.BinomAtMostPower` | pkg/loadtest/client_kvstore.go:16-19 | in general C(n, r) is at most n to the r |
| `KVStore.TableIncreasing` | pkg/loadtest/client_kvstore.go:19-36 | the table increases, so the first adequate entry is the least |
| `KVStore.RequiredKVStoreSuffixLen` | pkg/loadtest/client_kvstore.go:103-114 | the scan finds the first entry above the count or fails when there is none |
| `KVStore.SuffixSearch` | pkg/loadtest/client_kvstore.go:103-114 | succeeds if and only if the count is below the last entry, with one more than the least adequate length |
| `KVStore.SuffixMonotone` | pkg/loadtest/client_kvstore.go:103-114 | more transactions never get a shorter suffix |
| `KVStore.KeyspaceBound` | pkg/loadtest/client_kvstore.go:103-114 | there are more suffixes of the chosen length than 62 times the count |
| `KVStore.KeyspaceCovers` | pkg/loadtest/client_kvstore.go:70-101 | for a validated configuration that allows fewer than 2^64 transactions there are more suffixes than 62 times that many |
| `KVStore.WrappedEstimateAccepted` | pkg/loadtest/client_kvstore.go:70-85 | a false promise: a configuration whose product wraps is accepted with fewer suffixes than transactions |
| `KVStore.RandStr` | pkg/loadtest/rand.go:14-33 | for every byte source, exactly the requested number of letters of the alphabet, each the image of the byte at its position; a length of zero or less gives the empty string |
| `KVStore.EveryLetterDrawn` | pkg/loadtest/rand.go:8-33 | every letter of the alphabet can be drawn |
| `KVStore.ClientAcceptsExactly` | pkg/loadtest/client_kvstore.go:70-85 | accepts if and only if the estimate is positive and below the last table entry and a transaction has room for client ID, suffix, '=' and one letter |
| `KVStore.ValidConfigYieldsClient` | pkg/loadtest/client_kvstore.go:70-101 | a validated configuration always yields a client with a positive value length |
| `KVStore.GenerateTx` | pkg/loadtest/client_kvstore.go:116-120 | key prefix, fresh suffix, '=' and value, of the client's lengths, suffix and value letter by letter from their random bytes |
| `KVStore.TxLayout` | pkg/loadtest/client_kvstore.go:116-120 | every transaction of a validated configuration has exactly `Size` bytes, one '=' right after the key, and a non-empty value |
| `KVStore.SplitRecovers` | pkg/loadtest/client_kvstore.go:116-120 | splitting at the first '=' gives back key and value |
| `LoadConfig.EstimateExactly` | pkg/loadtest/config.go:116-121 | a given count is the estimate; otherwise the estimate is `Rate * Time` if and only if that is below 2^64, and too low beyond |
| `ConfigCheck.ValidExactly` | pkg/loadtest/config.go:63-112 | acceptance as an if-and-only-if on all fields |
| `ConfigCheck.ValidCoordinatorExactly` | pkg/loadtest/config.go:131-145 | likewise for the coordinator's configuration |
| `ConfigCheck.ValidIsUsable` | pkg/loadtest/config.go:63-112 | validation establishes all that the send loop and the group rely on |

## Left out

- Clocks and floating-point rates: timeouts, tickers and deadlines are nondeterministic choices, and only the integer
  increments behind the published rates are modelled.
- Prometheus metrics, logging, the CSV file of aggregate statistics, command line, signals and process exit: an interrupt
  is a stop or cancel step.
- HTTP server, dialling, DNS lookup and URL parsing: addresses are rendered hosts, and `hostOf` stands for parsing.
- JSON and base64 encoding of messages and transactions: messages are values.
- Client factories other than the built-in `kvstore`, and clients that do not produce transactions of the configured
  size in the group and protocol models; the send loop itself is modelled for any sizes.
- `pkg/loadtest/rpc.go`, `internal/`, `cmd/`: data shapes, I/O plumbing and thin wrappers.
- Liveness of the coordinator: it does not hold, see above. Uniqueness of random keys is only probabilistic.
- Overflow of Go's `int` and `int64` in the transaction and byte totals; `uint64` wrap-around is modelled where the
  source uses it, in the estimate of transactions per endpoint.
- Aliasing of the key prefix slice in `GenerateTx`: byte strings are values.
- The socket's read pump and its wait for the remote close; in the protocol a read delivers the next frame, times out,
  or fails after swallowing a frame.
- The capacity of `simpleSocket`'s outbound channel; the capacities of the coordinator's three queues and of the
  control channel are modelled as guards.
- Responses to a `Fail` control message: the coordinator ignores them, so only the message is queued. The early return
  of `Fail` for a worker already failed is not needed, since the coordinator fails each worker at most once.
- In the objects `RemoteWorker` and `Worker` a read delivers the next frame or nothing; reads that fail after swallowing
  a frame occur in the protocol only. The deferred unregister request itself is the protocol's action `Depart`.
- A `Worker` object drives its transactor group through the steps of `GroupModel`, not through `TransactorGroup`
  objects, whose methods are tied to that model separately.
- Transactors.Transactor.SendLoop: runs over a finite prefix of its environment, as `Coordinator` and `SimpleSocket` do;
  a statement about all prefixes is a statement about every moment of an unending run.
- The receive loop of a transactor: it reads and discards responses and touches neither the statistics nor the stop flag.
- KVStore.RandStr: draws from an arbitrary byte source; nothing is said about its distribution.
