# Verified model of the BEC scan pipeline

A Dafny 4.11 project that models the parts of BEC (Beamline Experiment Control) in which requests become
measurements: the scan server's queue and worker, the scan bundler, the file writer, the message framing, the stream
consumer, the path optimizers and the two worker managers. `dafny verify dfyconfig.toml` checks the whole project.

## How the model is laid out

| file | what it models |
|---|---|
| `Instructions.dfy`, `Arithmetic.dfy` | device instructions shared by the other modules; a few facts about products |
| `StepScan.dfy` | the generator of a step scan, as a class that appends to its stream and as a function |
| `ScanWorker.dfy` | wait groups, point counter, scan ID, staged devices and polling loops of the scan worker |
| `Barriers.dfy`, `StepScanBarriers.dfy`, `BurstLag.dfy` | worker and devices as one transition system; barrier safety of step scans and its gap |
| `AbortBarriers.dfy`, `MoveBarriers.dfy`, `StaleReadings.dfy` | what the barriers guarantee exactly: at an abort, and among the reports of earlier requests |
| `RequestBlocks.dfy`, `ScanDefs.dfy` | a queue item from its first request to its end, with number accounting; point numbering within a scan def |
| `ScanQueue.dfy`, `ScanNumbers.dfy` | merging requests into queue items; predicted scan numbers |
| `ServerRuns.dfy` | inserter, interceptor and worker thread interleaved access by access |
| `ScanBundler.dfy`, `BundlerStorage.dfy` | collecting readings in any order; the bundler's storage lifecycle |
| `FileWriter.dfy`, `MergeDicts.dfy` | writing each scan once; merging nested dictionaries |
| `PathOptimization.dfy`, `Raster.dfy` | corridor and shell ordering of positions; the snaked raster |
| `Framing.dfy`, `StreamConsumer.dfy`, `WorkerManagers.dfy` | message framing 1.2; stream cursors; reconciling processes with a configuration |

Where the program updates objects step by step the model is a class whose methods are proved to compute a named
function of the old state; the results about whole runs are lemmas about those functions. Threads are modelled as
transition systems whose steps make at most one access that another thread can interfere with. UUIDs are numbers drawn
from a counter. Devices may report late, stale or not at all, but a success they report for an instruction of the
running scan is true; `StaleReadings.dfy` admits what they reported to earlier requests of the scan.

## Where the code differs from what its documentation suggests

Each of these is proved as an exact condition, with the code kept as it is, and shown at an input.

- Bursts at the first position of a step scan are triggered without waiting for monitored devices that are not scan
  motors to finish the previous reading; from the second position on they are awaited (`BurstLag.WaitsIff`,
  `BurstLag.LaggingRun`).
- An abort sends the motors back to the start without waiting for sets that are under way; a motor is at rest for sure
  exactly when the abort does not fall between a set of it and the end of the wait that closes its move
  (`MoveBarriers.ReturnsAtRestWhen`, `AbortBarriers.AbortWhileMoving`).
- A wait for a reading does not compare requests: in a scan of several requests a trigger can be sent on the reading of
  an earlier request, exactly when that request left the device on the DIID awaited. A shorter scan before a longer one
  of the same kind does (`StaleReadings.ReadingGuaranteedIff`, `StaleReadings.TriggerOnStale`,
  `StaleReadings.SameReadings`).
- A request inserted between the empty read of the paused branch and the loop's next pass is dropped
  (`ServerRuns.FifoIff`, `ServerRuns.ItemsCanBeLost`).
- A halt that arrives after the worker has decided to return to the start and before it has reset its status is
  overwritten, and the scan returns to its start (`ServerRuns.HaltForbidsReturn`, `ServerRuns.HaltHoldsIff`,
  `ServerRuns.HaltCanBeLost`).
- The queue history records the status written by the last interception that lands between the worker's final status
  and the history entry, so a completed scan can be recorded as paused (`ServerRuns.HistoryRecords`,
  `ServerRuns.CompletedRecordedAsPaused`).
- A scan that joins its scan def behind the request that closes it starts again at point 0
  (`RequestBlocks.RestartsIff`, `RequestBlocks.PointsTakenTwice`).
- A request that joins a queue group can be dropped: it is begun if and only if its item has not ended and no group
  closing still to be taken finds the item's scan def closed, or the item without one (`RequestBlocks.JoinedRunsIff`).
  Behind a closing it is dropped without a scan def (`RequestBlocks.ClosingCutsOff`) and executed while one is open
  (`RequestBlocks.LateRequestRuns`).
- The number of points announced at the opening of a step scan inside a scan def is wrong exactly when one point has
  been taken before; the closing number is wrong exactly when none was taken (`ScanDefs.OpeningsAreTotals`,
  `ScanDefs.ClosingIsTotal`, `ScanDefs.SecondOpeningWrong`, `ScanDefs.ClosingWrong`).
- A predicted scan number is too high while a scan ahead has been counted but its item is not yet marked COMPLETED or
  has not left the queue; within an item with several scans it stays too high (`ScanNumbers.PredictionIff`,
  `ScanNumbers.PredictedTooHigh`).
- A request that names both an unopened scan def and a queued group makes a second item of that group
  (`ScanQueues.GroupsStayApartIff`, `ScanQueues.GroupSplits`).
- `merge_dicts` loses or misplaces leaves when a key holds a `/` or a nested dictionary is empty
  (`MergedDicts.MergeIff`, `MergedDicts.SlashNests`, `MergedDicts.EmptyLost`).
- `optimize_shell` loses points that lie inside `-offset * dr` (`PathOptimization.ShellsPermuteIff`,
  `PathOptimization.PointLost`).
- The first row of the snaked raster runs from the end of its axis to the start; the docstring draws the opposite
  (`Rasters.FirstRowDescends`).
- A stream consumer that loses the connection during its first poll, after its first look-up, later delivers the
  topics it had not reached from the start of their streams (`StreamConsumers.AllLookedUp`,
  `StreamConsumers.OldEntryDelivered`).
- A file of a synchronised scan is never written when the closed status finds more points than it announces
  (`FileWriters.WrittenIff`, `FileWriters.NeverWritten`).

## Model

| member | source | states |
|---|---|---|
| StepScans.StepScan.Run | scan_server/scan_server/scans.py:508-521 | the generator yields reads, offset, opening, pre-scan, acquisition loop and closing part in this order, each message with its index as DIID, and advances the point ID by positions × burst |
| StepScans.StepScan.ScanCore | scan_server/scan_server/scans.py:440-445 | the two nested loops take every position `burst` times in order |
| StepScans.StepScan.Point | scan_server/scan_server/scans.py:464-480 | one acquisition moves, awaits the previous reading except at the first position, triggers, reads, and counts the point |
| StepScans.StepScan.MoveTo | scan_server/scan_server/scans.py:482-490 | one set per motor in motor order, then one wait; nothing for an empty position |
| StepScans.StepScan.SetPositionOffset | scan_server/scan_server/scans.py:428-434 | relative positions become absolute by adding the motors' read-backs |
| StepScans.StepScan.Emit | scan_server/scan_server/scans.py:228-232 | each message takes the next DIID |
| StepScans.StreamNumbered | scan_server/scan_server/scans.py:228-232 | over the whole stream every DIID is the instruction's own index, so no two instructions share one |
| ScanWorkers.ScanWorker.AddWaitGroup | scan_server/scan_server/scan_worker.py:83-109 | the addressed devices enter the wait group with this DIID, replacing older entries; waits register nothing |
| ScanWorkers.ScanWorker.GetDevices | scan_server/scan_server/scan_worker.py:58-81 | named devices, else the monitored devices or the scan motors |
| ScanWorkers.ScanWorker.PollUntil | scan_server/scan_server/scan_worker.py:152-259 | the loop ends at the first pass that is interrupted or reads every awaited DIID |
| ScanWorkers.FirstEndIsFirst | scan_server/scan_server/scan_worker.py:152-259 | the worker passes at a pass if and only if that pass satisfies the wait, none before does and none up to it aborts |
| ScanWorkers.ScanWorker.Open | scan_server/scan_server/scan_worker.py:480-503 | the first open fixes scan ID, motors and priorities; the point counter restarts outside scan defs; announced points include those already taken |
| ScanWorkers.ScanWorker.Close | scan_server/scan_server/scan_worker.py:537-556 | only the open scan is closed, and announces its highest point ID plus one, or the positions a fly scan has taken |
| ScanWorkers.ScanWorker.InstructionStep | scan_server/scan_server/scan_worker.py:662-713 | one instruction's complete effect on wait groups, counters and staged devices, what it announces, also for fly scans, and what it waits for; when the check finds the worker stopped, only wait group and point are noted and the scan aborts |
| Barriers.RunKeeps | scan_server/scan_server/scan_worker.py:83-109 | in every reachable state of worker and truthful devices, every awaited DIID is finished and each motor whose last set is finished stands where that set sent it |
| StepScanBarriers.StreamSafe | scan_server/scan_server/scans.py:464-490 | every set of a step scan is preceded by waits for all earlier sets and readings of that motor, and every trigger has its motors in place |
| StepScanBarriers.TriggerIsSafe | scan_server/scan_server/scans.py:464-480 | whenever a trigger is sent, all scan motors have arrived at that point's position and the readings of the previous point are finished, those of motors always, those of all devices from the second position on |
| StepScanBarriers.SetIsSafe | scan_server/scan_server/scans.py:482-490 | whenever a motor is set, every earlier set and reading of it is finished |
| StepScanBarriers.ScheduleIs | scan_server/scan_server/scans.py:440-445 | point k belongs to position k / burst |
| BurstLag.WaitsIff | scan_server/scan_server/scans.py:466-475 | the previous reading is guaranteed if and only if the point lies beyond the first position's bursts or only scan motors are monitored |
| BurstLag.LaggingRun | scan_server/scan_server/scans.py:466-475 | a run in which a burst at the first position is triggered while a device still reads the burst before |
| AbortBarriers.GuaranteedIff | scan_server/scan_server/scan_worker.py:83-109 | the barriers of a step scan are complete: wherever the worker stands, an instruction is finished in every run if and only if some wait before asked for it |
| AbortBarriers.ReturnsAtRestIff | scan_server/scan_server/scan_worker.py:642-653 | an abort sends the return motion to a motor that is at rest in every run if and only if each of its sets has been awaited |
| AbortBarriers.AbortWhileMoving | scan_server/scan_server/scan_worker.py:642-653 | behind every set of a step scan there is a run in which the abort finds the motor moving |
| MoveBarriers.ReturnsAtRestWhen | scan_server/scan_server/scan_worker.py:642-653 | that is so exactly when the abort does not fall between a set of the motor and the end of the wait that closes its move |
| StaleReadings.GuaranteedAmongIff | scan_server/scan_server/scan_worker.py:152-365 | in a scan of several requests an instruction is finished in every run if and only if some wait before asked for it that no report of an earlier request can satisfy |
| StaleReadings.ReadingGuaranteedIff | scan_server/scan_server/scan_worker.py:239-251 | the reading of a point is finished in every run if and only if a wait before asked for it and no earlier request left the device on that DIID |
| StaleReadings.TriggerOnStale | scan_server/scan_server/scan_worker.py:239-251 | if one did, a run in which a later trigger is sent although the device has not finished reading |
| StaleReadings.TriggerSafeAmong | scan_server/scan_server/scan_worker.py:239-251 | if no earlier report can satisfy a wait, every trigger of every run is safe |
| StaleReadings.SameReadings | scan_server/scan_server/scans.py:440-480 | a step scan reads its points with the same DIIDs as one of the same kind with further positions |
| RequestBlocks.RequestBlockQueue.AppendBlock | scan_server/scan_server/scan_queue.py:581-599 | a new scan def starts at point 0; the block is queued last |
| RequestBlocks.RequestBlockQueue.PullRequestBlock | scan_server/scan_server/scan_queue.py:606-621 | a scan continues the point count of its open scan def |
| RequestBlocks.RequestBlockQueue.IncreaseScanNumber | scan_server/scan_server/scan_queue.py:623-632 | scans outside scan defs and closing requests raise the scan number, and the dataset number unless on hold |
| RequestBlocks.RequestBlockQueue.NextInstruction | scan_server/scan_server/scan_queue.py:637-649 | the next instruction, finishing at most one exhausted block |
| RequestBlocks.InstructionQueueItem.GetNextInstruction | scan_server/scan_server/scan_queue.py:806-842 | placeholders and group closings are kept back, a closed scan def is dropped; without an instruction the item waits for its scan def and group and otherwise ends |
| RequestBlocks.InstructionQueueItem.Drain | scan_server/scan_server/scan_worker.py:635-641 | the loop collects every instruction up to the first pass that brings none |
| RequestBlocks.RunConserves | scan_server/scan_server/scan_queue.py:606-649 | in every run of joining requests and polls, what the generators gave and what is pending is the in-order concatenation of all streams, points going on until their scan def is closed; the worker is handed all of it but placeholders and group closings; both numbers have risen by the share of the finished blocks |
| RequestBlocks.EndsIff | scan_server/scan_server/scan_queue.py:827-842 | an item ends at a poll if and only if that finds no instruction, or the closing of its group, and its scan def and group have then been closed |
| RequestBlocks.CompletedItem | scan_server/scan_server/scan_queue.py:801-842 | a completed item has its scan def and group closed; of what had joined it when it ended everything was taken if and only if nothing ended it before the last instruction, otherwise all up to the closing that ended it; if nothing ended it, all requests are counted |
| RequestBlocks.CompletedPlainly | scan_server/scan_server/scan_queue.py:801-842 | if no group closing was taken, a completed item has handed out and counted everything that ever joined it |
| RequestBlocks.GetsPastIff | scan_server/scan_server/scan_queue.py:806-842 | from any moment of any run, an instruction is taken in some continuation if and only if the item has not ended and takes no group closing before it with its scan def closed; then by polling alone |
| RequestBlocks.JoinedRunsIff | scan_server/scan_server/scan_queue.py:806-842 | a request that joins is begun in some continuation if and only if the item has not ended and no group closing ahead of the request finds the scan def closed |
| RequestBlocks.ClosingCutsOff | scan_server/scan_server/scan_queue.py:815-817 | without a scan def, a request that joins behind the closing of the group is not handed out |
| RequestBlocks.LateRequestRuns | scan_server/scan_server/scan_queue.py:827-832 | with the scan def open, a request that joins behind the closing of the group is handed out |
| RequestBlocks.RestartsIff | scan_server/scan_server/scan_queue.py:617-648 | a scan of a def starts at the point the scans before it ended with, at 0 if the def was closed before it |
| RequestBlocks.PointsTakenTwice | scan_server/scan_server/scan_queue.py:617-648 | a scan, the closing of its scan def and the scan again, all queued before the first poll: both scans take the same points |
| RequestBlocks.DrainIff | scan_server/scan_server/scan_queue.py:637-649 | the loop drains an item if and only if no block but the first is empty and no placeholder or group closing comes, then with the full concatenation, the full rise of both numbers and the scan defs left open that the streams do not close |
| RequestBlocks.CountIs | scan_server/scan_server/scan_queue.py:623-632 | scan numbers count plain scans and closed scan defs; dataset numbers leave out those on hold |
| ScanDefs.DefIsNumbered | scan_server/scan_server/scan_queue.py:617-648 | across all scans of a scan def that arrived before its closing the points are numbered 0, 1, … without gap or repeat, and the worker announces the listed opening and closing numbers |
| ScanDefs.ClosingIsTotal | scan_server/scan_server/scan_worker.py:552-554 | the last number the worker announces for a scan def is the number of points taken if and only if one was taken |
| ScanDefs.OpeningsAreTotals | scan_server/scan_server/scan_worker.py:491-495 | the numbers the worker announces at the openings are the running totals if and only if no step scan opens after exactly one point |
| ScanDefs.SecondOpeningWrong | scan_server/scan_server/scan_worker.py:491-495 | two scans of one point are announced as 1, 1 and at last 2 |
| ScanDefs.ClosingWrong | scan_server/scan_server/scan_worker.py:552-554 | a scan def without points is closed as having one |
| ScanDefs.StreamPoints | scan_server/scan_server/scans.py:440-445 | one scan numbers its points consecutively from where it starts |
| ScanDefs.QueueYieldsDef | scan_server/scan_server/scan_queue.py:637-649 | the queue hands out the scan def's streams one after the other, each continuing the point count, and the def is closed at the end |
| ScanQueues.InstructionQueueItem.AppendScanRequest | scan_server/scan_server/scan_queue.py:750-753 | a block of an open scan def takes its scan ID; a new scan def is opened with the block's own; a request that cannot be assembled is only remembered among the messages |
| ScanQueues.InstructionQueueItem.CloseScanDef | scan_server/scan_server/scan_queue.py:817-820 | the scan def is no longer open in its item |
| ScanQueues.ScanQueue.GetQueueItem | scan_server/scan_server/scan_queue.py:440-451 | the first item holding the request's scan def or, without one, its group |
| ScanQueues.ScanQueue.Insert | scan_server/scan_server/scan_queue.py:411-438 | the request joins that item, or starts a new one at the given position of the deque |
| ScanQueues.ScanQueue.Popleft | scan_server/scan_server/scan_queue.py:383-385 | the head leaves, the others keep their order |
| ScanQueues.ScanQueue.Clear | scan_server/scan_server/scan_queue.py:372-375 | nothing stays queued and no item is active |
| ScanQueues.RunKeeps | scan_server/scan_server/scan_queue.py:411-451 | in every reachable state each accepted request is one block of exactly one item, no scan def is open in two queued items, all blocks of a scan def in an item share one scan ID and no other blocks do |
| ScanQueues.GroupsStayApartIff | scan_server/scan_server/scan_queue.py:417-434 | an insert leaves at most one queued item a group if and only if it is not a request with an unopened scan def and an already queued group |
| ScanQueues.GroupSplits | scan_server/scan_server/scan_queue.py:417-434 | a run of two requests that leaves two queued items of one group |
| ScanQueues.GroupsUnique | scan_server/scan_server/scan_queue.py:417-434 | when no request names both, groups stay unique in every run |
| ScanNumbers.ScanIDsHead | scan_server/scan_server/scan_queue.py:523-538 | the nested loops compute the offset: scans of earlier, not completed items and earlier scans of the own item |
| ScanNumbers.RunMoves | scan_server/scan_server/scan_queue.py:503-538 | over every orderly run the line of waiting scans loses from its front as many scans as the number rises and gains arrivals at its end, so the number due for each waiting scan never changes |
| ScanNumbers.JoinWaiting | scan_server/scan_server/scan_queue.py:596-599 | a block that joins an item pushes back the scans of all items behind it |
| ScanNumbers.AbortWaiting | scan_server/scan_server/scan_worker.py:738-744 | an abort raises the number by at most one and takes the item's remaining scans off the line |
| ScanNumbers.PlaceHolds | scan_server/scan_server/scan_queue.py:523-538 | a waiting scan stands in the line at the place its queue position gives |
| ScanNumbers.PredictionIs | scan_server/scan_server/scan_queue.py:503-538 | the prediction exceeds the number due by exactly the head item's scans that no longer wait while it is unmarked |
| ScanNumbers.PredictionIff | scan_server/scan_server/scan_queue.py:503-538 | a prediction is right if and only if the head is completed or none of its scans has been counted or dropped |
| ScanNumbers.PredictedTooHigh | scan_server/scan_server/scan_queue.py:503-538 | a run in which a scan is predicted one more than it is started with |
| ScanNumbers.NumberInForce | scan_server/scan_server/scan_worker.py:510-518 | the number predicted for a waiting scan at any time is the number in force when it is started later, plus the head's unmarked scans at the time of the prediction |
| ScanNumbers.SinglesOrderly | scan_server/scan_server/scan_queue.py:503-538 | with single-request items every run is orderly and predictions are off, by one, exactly between counting and marking the head |
| ServerRuns.Reachable | scan_server/scan_server/scan_queue.py:380-409 | the invariants of queue order, item counts, history records and staged devices hold in every interleaving of the threads' accesses |
| ServerRuns.NoItemTwice | scan_server/scan_server/scan_queue.py:380-409 | every inserted item is exactly one of taken, lost and waiting, taken items are in insertion order, as many are lost as inserts landed in the unsafe window, and the history is the last 100 taken |
| ServerRuns.FifoIff | scan_server/scan_server/scan_queue.py:380-409 | items are handed out once each in insertion order if and only if no insert lands in the unsafe window |
| ServerRuns.UnsafeInsertIsLost | scan_server/scan_server/scan_queue.py:397-409 | an item inserted into the window is dropped without having been taken |
| ServerRuns.ItemsCanBeLost | scan_server/scan_server/scan_queue.py:397-409 | a run from the start in which an item is lost |
| ServerRuns.EachItemEndsOnce | scan_server/scan_server/scan_worker.py:728-747 | every item taken and let go has exactly one history entry, made after its worker wrote COMPLETED or STOPPED, and has returned to its start at most once |
| ServerRuns.HaltForbidsReturn | scan_server/scan_server/scan_queue.py:169-174 | from the moment a halt forbids the return, no continuation of the run sends the item back if and only if the worker has not decided on the return before |
| ServerRuns.HaltHoldsIff | scan_server/scan_server/scan_worker.py:642-653 | once a halt has stopped the worker, and unless someone pauses or continues the queue, the item stays away from its start if and only if the worker is not between its decision to return and the reset of its status, nor about to send the motion |
| ServerRuns.HaltCanBeLost | scan_server/scan_server/scan_worker.py:642-653 | a run from the start in which a halt is through before anything moves and the item still returns |
| ServerRuns.AbortUnstagesAll | scan_server/scan_server/scan_worker.py:558-590 | after an aborted item nothing is staged and every stage message has been followed by an unstage of the same device |
| ServerRuns.HistoryRecords | scan_server/scan_server/scan_queue.py:789-796 | the entry records what the last interception wrote to the item after the worker's final status, hence the true end if and only if there was none or it wrote that status |
| ServerRuns.CompletedRecordedAsPaused | scan_server/scan_server/scan_worker.py:656-658 | a run that records a completed item as paused |
| ScanBundlers.EmitsIff | scan_bundler/scan_bundler/scan_bundler.py:173-204 | for any reports, a report emits its point if and only if exactly the monitored devices have reported it, with their last readings |
| ScanBundlers.StoredIs | scan_bundler/scan_bundler/scan_bundler.py:181-193 | what is stored of a point are the last readings, and the marks say who has reported |
| ScanBundlers.EachPointOnce | scan_bundler/scan_bundler/scan_bundler.py:173-204 | when every device reports every point once, in any order, the completed points are emitted once each with exactly the readings sent |
| ScanBundlers.OrderIndependent | scan_bundler/scan_bundler/scan_bundler.py:173-204 | two arrival orders of the same reports leave the same state and emit the same points |
| ScanBundlers.BaselineEmitsIff | scan_bundler/scan_bundler/scan_bundler.py:221-243 | the baseline is emitted if and only if every baseline device has reported since it last was |
| ScanBundlers.BaselineOnce | scan_bundler/scan_bundler/scan_bundler.py:221-243 | one report a device, in any order, emits the baseline once, at the last report, with all readings |
| ScanBundlers.LatestIs | scan_bundler/scan_bundler/scan_bundler.py:227-230 | what the baseline holds are exactly the readings reported |
| BundlerStorage.ScanBundler.StepScanUpdate | scan_bundler/scan_bundler/scan_bundler.py:173-204 | the scan's points change as one report changes them; no other scan is touched |
| BundlerStorage.ScanBundler.FlyScanUpdate | scan_bundler/scan_bundler/scan_bundler.py:206-219 | a fly scan's point takes the reading and the monitored devices' read-backs and is emitted at once; with a read-back missing it takes the reading only and nothing is emitted; no other scan is touched |
| BundlerStorage.ScanBundler.BaselineUpdate | scan_bundler/scan_bundler/scan_bundler.py:221-243 | the scan's baseline changes as one reading changes it; no other scan is touched |
| BundlerStorage.ScanBundler.AddDeviceToStorage | scan_bundler/scan_bundler/scan_bundler.py:271-309 | which messages reach which update, and which change nothing |
| BundlerStorage.ScanBundler.CleanupStorage | scan_bundler/scan_bundler/scan_bundler.py:329-353 | exactly the ended scans outside the history leave all stores |
| BundlerStorage.ScanBundler.InitializeScanContainer | scan_bundler/scan_bundler/scan_bundler.py:141-171 | only an open status of an unknown scan opens its storage |
| BundlerStorage.ScanBundler.ScanStatusModification | scan_bundler/scan_bundler/scan_bundler.py:123-139 | a known scan takes the status; an unknown one gets an entry without info |
| BundlerStorage.ScanBundler.HandleScanStatusMessage | scan_bundler/scan_bundler/scan_bundler.py:111-121 | cleanup, introduction, history and status change in this order |
| BundlerStorage.RunConsistent | scan_bundler/scan_bundler/scan_bundler.py:111-171 | in every reachable state a scan is stored if and only if it is initialized, the history has at most ten distinct scans, and at most one ended scan has outlived it |
| BundlerStorage.CleanupExact | scan_bundler/scan_bundler/scan_bundler.py:329-353 | right after the cleanup every stored ended scan is in the history, and no other scan was dropped or changed |
| BundlerStorage.EndedBounded | scan_bundler/scan_bundler/scan_bundler.py:329-353 | never more than eleven ended scans are stored |
| BundlerStorage.RunHolds | scan_bundler/scan_bundler/scan_bundler.py:271-309 | among any other scans and messages, an opened scan, step or fly, holds and has emitted exactly what its own reports since its opening amount to |
| BundlerStorage.StepScanHolds | scan_bundler/scan_bundler/scan_bundler.py:173-204 | for a step scan that is what its readings amount to, point by point |
| BundlerStorage.FlyScanEmits | scan_bundler/scan_bundler/scan_bundler.py:206-219 | a fly scan emits at every report that finds all read-backs and at no other, each time all that has been reported for the point |
| FileWriters.ScanStorage.Append | file_writer/file_writer/file_writer_manager.py:46-54 | a point's data replace earlier data of that point |
| FileWriters.ScanStorage.ReadyToWrite | file_writer/file_writer/file_writer_manager.py:56-62 | finished, and with synchronised points exactly as many as announced |
| FileWriters.FileWriterManager.UpdateScanStorageWithStatus | file_writer/file_writer/file_writer_manager.py:116-143 | a closed status finishes the scan and may write it; others only create its storage |
| FileWriters.FileWriterManager.InsertToScanStorage | file_writer/file_writer/file_writer_manager.py:145-163 | the point is stored and the scan written if it is complete |
| FileWriters.FileWriterManager.CheckStorageStatus | file_writer/file_writer/file_writer_manager.py:279-292 | a ready scan is written and forgotten, any other left alone |
| FileWriters.FileWriterManager.WriteFile | file_writer/file_writer/file_writer_manager.py:294-325 | one write with the stored points, after which the scan is gone |
| FileWriters.ScansIndependent | file_writer/file_writer/file_writer_manager.py:116-163 | what is stored and written of a scan depends on its own messages only |
| FileWriters.WrittenAtMoment | file_writer/file_writer/file_writer_manager.py:279-292 | with at most one closed status, one file is written if at some point everything is in, with the points of the first such moment, otherwise none |
| FileWriters.MomentIsFirst | file_writer/file_writer/file_writer_manager.py:56-62 | that moment is the shortest prefix in which everything is in |
| FileWriters.WrittenIff | file_writer/file_writer/file_writer_manager.py:56-62 | the file is written if and only if nothing is synchronised, or at the closed status there are no more points than announced and in the end no fewer |
| FileWriters.NeverWritten | file_writer/file_writer/file_writer_manager.py:56-62 | a scan closed with fewer points than are in is not written whatever follows |
| FileWriters.AnyOrderWritesOnce | file_writer/file_writer/file_writer_manager.py:116-163 | a closed status announcing N and N points sent once, in any order, give one write with exactly what was sent |
| MergedDicts.FlattenDict | file_writer/file_writer/merged_dicts.py:15-23 | the loop builds the flat dictionary, later collisions overwriting |
| MergedDicts.GetMergedFlatDicts | file_writer/file_writer/merged_dicts.py:6-12 | the loops append every input's flat values to the key's list |
| MergedDicts.MergeDicts | file_writer/file_writer/merged_dicts.py:39-53 | the loop inserts every flat key by its path, failing where a leaf is updated like a dictionary |
| MergedDicts.SplitJoin | file_writer/file_writer/merged_dicts.py:50-52 | splitting a flat key gives back the path it was made of |
| MergedDicts.FlattenIs | file_writer/file_writer/merged_dicts.py:15-23 | flattening lists the leaves under their joined paths, in order |
| MergedDicts.Rebuilds | file_writer/file_writer/merged_dicts.py:26-36 | inserting the leaves of a clean dictionary one after the other rebuilds it |
| MergedDicts.MergeIff | file_writer/file_writer/merged_dicts.py:39-53 | inputs of one shape merge into their pointwise zip if and only if no key holds a '/' and no nested dictionary is empty; otherwise the result lacks their shape or an exception is raised |
| MergedDicts.SlashNests | file_writer/file_writer/merged_dicts.py:50-52 | a key with a '/' comes back as a nested dictionary |
| MergedDicts.EmptyLost | file_writer/file_writer/merged_dicts.py:15-23 | an empty nested dictionary does not come back |
| MergedDicts.ZipFinds | file_writer/file_writer/merged_dicts.py:40-46 | the zip has the first input's paths and lists the inputs' leaves there |
| MergedDicts.ValuesAll | file_writer/file_writer/merged_dicts.py:40-46 | that list has one leaf of each input, in input order |
| PathOptimization.OptimizeCorridor | scan_server/scan_server/path_optimization.py:8-50 | unless a tried size leaves no corridor, the result is a permutation of the points and no tried size gives a shorter path |
| PathOptimization.GetPathLength | scan_server/scan_server/path_optimization.py:82-86 | the loop sums the distances of consecutive points |
| PathOptimization.CollectBlocks | scan_server/scan_server/path_optimization.py:39-46 | the loop concatenates the corridors, every second one reversed |
| PathOptimization.CorridorsPermute | scan_server/scan_server/path_optimization.py:27-47 | with at least one corridor, the corridors hold every point exactly once |
| PathOptimization.CorridorsRise | scan_server/scan_server/path_optimization.py:32-41 | along the sort axis a corridor's points lie below those of every later one |
| PathOptimization.CorridorsAlternate | scan_server/scan_server/path_optimization.py:42-45 | along the other axis corridors descend and ascend in turn |
| PathOptimization.OptimizeShell | scan_server/scan_server/path_optimization.py:52-80 | the result lists the points shell by shell; it is a permutation of them if and only if no radius is below -offset × dr |
| PathOptimization.ShellsPermuteIff | scan_server/scan_server/path_optimization.py:58-73 | the shells hold every point exactly once under just that condition |
| PathOptimization.PointLost | scan_server/scan_server/path_optimization.py:58-61 | with a negative offset a point near the centre is lost |
| PathOptimization.ShellsRise | scan_server/scan_server/path_optimization.py:59-66 | points of a shell lie further in than those of later shells, by ascending angle within it |
| Rasters.Get2DRasterPos | scan_server/scan_server/scans.py:50-76 | the flattened grid is row after row, even rows reversed when snaked |
| Rasters.FlipEvenRows | scan_server/scan_server/scans.py:71-72 | every even row is reversed in place, all others kept |
| Rasters.PositionAt | scan_server/scan_server/scans.py:73-76 | the k-th position is that of the k-th visited grid point |
| Rasters.VisitedOnce | scan_server/scan_server/scans.py:50-76 | every grid point is visited at exactly one turn |
| Rasters.SnakeMovesByOne | scan_server/scan_server/scans.py:53-57 | consecutive snaked positions differ by one in one index |
| Rasters.UnsnakedJumps | scan_server/scan_server/scans.py:58-61 | without snaking consecutive positions are neighbours if and only if they lie in one row or rows have a single point |
| Rasters.SnakedIsFlipped | scan_server/scan_server/scans.py:71-72 | the snaked raster is the plain one with every even row reversed |
| Rasters.FirstRowDescends | scan_server/scan_server/scans.py:71-72 | the first row runs from the end of its axis to the start |
| Framing.DecimalParses | bec_lib/bec_lib/core/BECMessage.py:140-142 | parsing a printed length gives the length |
| Framing.FindsMark | bec_lib/bec_lib/core/BECMessage.py:139-139 | the first `_EOH_` is the one behind the declaration, whatever follows |
| Framing.UnframeFrame | bec_lib/bec_lib/core/BECMessage.py:138-145 | a frame gives back its header and body for all bytes |
| Framing.LoadsDumpsIff | bec_lib/bec_lib/core/BECMessage.py:203-219 | a dumped message loads back by a class if and only if it is one of its valid messages, otherwise to None |
| Framing.BundlesLoad | bec_lib/bec_lib/core/BECMessage.py:147-154 | bundles at any depth load to the in-order lists of their loaded members, by whatever class |
| Framing.ClassBack | bec_lib/bec_lib/core/BECMessage.py:240-253 | the class looked up for a dumped message is that of its type |
| Framing.LoadBundle | bec_lib/bec_lib/core/BECMessage.py:148-153 | the loop loads each member by its own class, failing at the first that fails |
| Framing.BundleMessage.Append | bec_lib/bec_lib/core/BECMessage.py:275-282 | bytes, strings and dumped messages are added at the end; anything else raises and adds nothing |
| Framing.BundleMessage.AppendMessage | bec_lib/bec_lib/core/BECMessage.py:279-280 | a message is dumped and added at the end |
| StreamConsumers.RedisStreamConsumer.PollMessages | bec_lib/bec_lib/core/redis_connector.py:600-625 | the first poll of a consumer that does not read from the start only looks up the newest entries; later polls read |
| StreamConsumers.RedisStreamConsumer.LookUpNewest | bec_lib/bec_lib/core/redis_connector.py:590-597 | the cursor moves to the newest entry, or to 0-0 |
| StreamConsumers.RedisStreamConsumer.Read | bec_lib/bec_lib/core/redis_connector.py:616-623 | one unread entry a topic is handed out, and its cursor moves there |
| StreamConsumers.RedisStreamConsumer.GetId | bec_lib/bec_lib/core/redis_connector.py:570-579 | the cursor of a topic, 0-0 without one |
| StreamConsumers.RunFollows | bec_lib/bec_lib/core/redis_connector.py:600-625 | in every interleaving of appends, commands and lost connections, what was handed out of a topic is a gap-free stretch of its stream from its base, ending at the cursor |
| StreamConsumers.DeliveredPrefix | bec_lib/bec_lib/core/redis_connector.py:600-625 | delivery is a prefix of the stream from the base on |
| StreamConsumers.BaseIs | bec_lib/bec_lib/core/redis_connector.py:590-597 | the base is the length of the stream when the topic was looked up, and the start of the stream if it never was |
| StreamConsumers.AllLookedUp | bec_lib/bec_lib/core/redis_connector.py:612-615 | in every run, once the first poll is over a topic has been looked up if and only if the consumer does not read from the start and did not lose the connection between the first look-up and this topic's |
| StreamConsumers.OldEntryDelivered | bec_lib/bec_lib/core/redis_connector.py:590-597 | a run in which a consumer of new entries is handed one that was there before its first poll |
| StreamConsumers.ReadFollows | bec_lib/bec_lib/core/redis_connector.py:616-623 | a read advances every topic with unread entries by exactly one |
| WorkerManagers.DAPWorkerManager.UpdateConfig | data_processing/data_processing/worker_manager.py:86-121 | entries are applied in order, then unnamed workers removed; an empty configuration changes nothing |
| WorkerManagers.DAPWorkerManager.ApplyEntry | data_processing/data_processing/worker_manager.py:92-114 | skip, start, keep or restart, by class, ID and configuration |
| WorkerManagers.DAPWorkerManager.StartWorker | data_processing/data_processing/worker_manager.py:123-138 | a new process takes the ID |
| WorkerManagers.DAPWorkerManager.RemoveUnnamed | data_processing/data_processing/worker_manager.py:116-121 | exactly the workers without an entry are terminated and dropped |
| WorkerManagers.UpdatesSound | data_processing/data_processing/worker_manager.py:86-138 | after any configurations the live processes are exactly the held ones, one an ID, each running its class and configuration |
| WorkerManagers.UpdateIs | data_processing/data_processing/worker_manager.py:86-121 | only named IDs are held; one with a known class runs its last such configuration, in the same process if that did not change; one without is left as it was |
| WorkerManagers.BECWorkerManager.AddWorker | bec_lib/bec_lib/bec_worker_manager.py:109-121 | a new ID is registered last and published; a known one raises and publishes nothing |
| WorkerManagers.BECWorkerManager.UpdateWorker | bec_lib/bec_lib/bec_worker_manager.py:123-132 | the worker takes over the settings and is published; an unknown ID raises |
| WorkerManagers.BECWorkerManager.RemoveWorker | bec_lib/bec_lib/bec_worker_manager.py:134-141 | every entry of the ID goes, and the rest is published |
| WorkerManagers.BECWorkerManager.GetWorker | bec_lib/bec_lib/bec_worker_manager.py:84-96 | the first worker of the ID, or none |
| WorkerManagers.RegistryKeeps | bec_lib/bec_lib/bec_worker_manager.py:109-141 | IDs stay unique and entries of other IDs stay as they are |
| WorkerManagers.OpsFollow | bec_lib/bec_lib/bec_worker_manager.py:109-146 | after any client operations every registered worker of a known class runs its registered configuration, and only registered workers run |
| WorkerManagers.OthersUntouched | data_processing/data_processing/worker_manager.py:105-114 | an operation on one worker leaves the processes of all others alone |

## Left out

- StepScanBarriers.TriggerIsSafe: for the first request of a scan ID; later ones are treated in `StaleReadings`.
- ScanNumbers.RunMoves: for requests without scan defs, whose blocks share one scan ID while each is counted ahead.
- ScanBundlers.OrderIndependent: for step scans; a fly scan emits at each report, so the order shows.
- FileWriters.AnyOrderWritesOnce: the file contents are the points; baseline, asynchronous data and file references are fetched from Redis when writing.
- Framing.BundlesLoad: assumes JSON and msgpack invertible and a packed body no shorter than the messages in it; only msgpack bodies and plain decimal lengths are read.
- PathOptimization.OptimizeCorridor: the default corridor size, which needs a square root, is a parameter; one-dimensional positions, which are returned unchanged, are not modelled; arithmetic is exact; equal keys keep their order, which numpy leaves open.
- ServerRuns.Reachable: queue and worker loops are functions on values there, not methods, because other threads act between any two of their steps; requests are inserted at the tail, and the manager's lock is left out, which only rules interleavings out.
- RequestBlocks.RequestBlockQueue.PullRequestBlock: the scan number assigned when a scan is pulled is the prediction treated in `ScanNumbers`.
- RequestBlocks.EndsIff: a paused item is polled on without ending.
- `set_clear`, `set_restart`, `remove_queue_item` and inserts in front of a running item are not part of the runs in `ServerRuns`.
- Interruptions raised before a request block is active, and exceptions inside a scan, appear only as an abort event.
- Failed movements are one way for a waiting pass to abort; the reports they raise are not modelled.
- The placeholder a step scan yields before `open_scan` (`StepScans`, `ScanDefs`), sleeps, timeouts, logging, alarms, heartbeats and status publications.
- Scan IDs and wait-group entries named None in metadata are treated as absent.
- The generators of fly, monitor and LamNI scans, and the position generators other than the raster.
- In-place sharing of values: the bundler's entries, registered client workers and merged dictionaries are values the methods reassign, so aliasing with a caller's dictionary is not captured.
- Newest-only stream consumers, trimmed or expired streams, duplicate topics, and patterns, which the connector refuses.
- Reading the registered workers back from Redis, and several clients publishing at once.
- Scan motors unknown to the device manager, scans of unknown type and the search of the status history while a reading waits for its scan.
- Versions 1.0 and 1.1 of the message format.
