# Verified model of the CSMS core

This project models the event-producing half of an EV-charging backend and proves what it keeps over
every run. It covers the transactional outbox and its relay, the charging-session handlers and their
bills, firmware campaigns, the command request/response protocol with its sweeper, the registry of
charger connections, and four smaller stateful pieces: the idempotency cache, charger provisioning
with its station ids, bulk registration, and the DataTransfer registry.

## How it is built

Each component is a state datatype, a `Step` datatype for everything that can happen to it (a handler,
one await of a loop, a timer, a failure, a crash), a total function `Next`, and `Run` over any sequence
of steps. Invariants are proved of `Next` one step at a time, and the theorems hold of `Run` from the
empty state, for every interleaving of steps.

Beside it stands the program as it is written: classes with the mutable fields of the source, whose
methods are proved equal to the steps (`State() == Next(old(State()), step)`). So the theorems about
runs are theorems about the methods.

What a step means is stated a second time, in the words of the messages and without the functions that
compute it: over all runs, every stored value is traced back to the message that it came from
(`SessionStories`, `StatusNotices`, `FirmwareStories`, `CommandStories`, `ProvisioningRules`), and each message
has exactly its effect (`SessionEffects`, `ProvisioningRules`, `RelayStop`).

| component | state machine and theorems | program |
|---|---|---|
| outbox relay | `Relay`, `RelaySafety`, `RelayLedger`, `RelayLoss`, `RelayTick`, `RelayDrain`, `RelayStop` | `OutboxRelayProgram` |
| charging sessions and bills | `Billing`, `Sessions`, `SessionLedger`, `SessionStories`, `SessionEffects`, `SessionRaces`, `FaultLog`, `StatusNotices` | `SessionHandlers` |
| sessions through the relay | `EndToEnd` | |
| firmware campaigns | `Firmware`, `FirmwareStories`, `FirmwareRaces` | `FirmwareProgram` |
| commands | `PendingRequests`, `CommandErrors`, `Commands`, `CommandSafety`, `CommandStories`, `Sweeper` | `PendingRequests.Waiters`, `CommandProcess` |
| connections | `Connections`, `StationPath` | `Connections.ConnectionManager` |
| idempotency | `Idempotency`, `IdempotencySpacing` | `Idempotency.Middleware` |
| provisioning | `StationIds`, `Provisioning`, `ProvisioningRules`, `BulkRegister`, `BulkCache`, `BulkTable` | `Provisioning.ProvisionService`, `BulkRegister.ProvisioningTable` |
| vendor messages | `DataTransfer` | `DataTransfer.DataTransferRegistry` |

`Strings`, `Wrappers` and `Events` hold what they share. Many proofs begin with `hide` statements:
they only keep definitions that a proof does not need away from the solver.

## Conventions

- Each OCPP handler, its lookup and its transaction together, is one atomic step, and so is the deletion of a
  station. The source reads before the transaction opens; `SessionLedger.StaleStartRevives`,
  `FaultLog.StaleReadHidesClear` and `Firmware.StaleReportReopens` show what a step between the two can do.
  `SessionRaces.EndedStaysIff`, `FaultLog.WriteLogsIff` and `FirmwareRaces.DoneStaysIff` split the lookup from
  the write and say exactly when such a step does harm.
- Everything else is split where the source awaits: the relay, commands, the start of the sweeper, the
  idempotency middleware (its read, its mark, the answer to the mark, its caching), the cancellation of a
  campaign, provisioning, and the count after a final firmware notification. A registration is one step because
  the unique keys of its tables make it one.
- Between two rows of a bulk registration manufacturers can appear and other calls can register chargers; what a
  row's lookup and insert meet is a function of the row's index.
- Outbox ids are assigned in commit order; a row's id is its index.
- A publish is acknowledged, refused with nothing appended, or appended with the answer lost. In the same way
  an update of an outbox row is applied, not applied, or applied with the answer lost.
- What the outside decides is a parameter of a step: whether an update or a transaction succeeds, clock
  readings, fresh keys, and which of several matching rows a lookup returns.
- A command's `Limits` bound how late its insert, its timer and its final update may be; time cannot pass
  the deadline they give, and nothing else about timing is assumed.
- Money is exact: the bill is the floor of a product of reals.
- Fields marked as history record what happened so that a theorem can speak of it; no step reads them.

## What the proofs found

The model follows the code. This is where the code's own comments say something else, or where a property
one would expect holds only under a condition, which is then proved exact.

- A campaign completes when every row is installed, failed or send_error. The handler's own summary says
  installed or failed only (`firmwareStatusNotification.handler.ts` lines 54 and 135).
- An error report from a charger whose code or description contains "timeout" is recorded as a timeout
  without a code, although the summary of `_sender.ts` reserves that status for an expired timer
  (`CommandErrors.CallErrorIsErrorIff` gives the exact condition).
- Two overlapping provisionings of a charger without an id both succeed, and the second replaces the id that
  the first has returned; a provisioning in flight also overwrites a revocation. Both are exact conditions on
  what is in flight (`Provisioning.IdIsPermanentIff`, `Provisioning.RevocationHoldsIff`).
- A completed campaign can still turn cancelled, if its cancellation was read before the completion
  (`Firmware.CompletedIsPermanentIff`); its rows stay done all the same.
- A crash during a dispatch leaves its campaign uncompleted for good, since nothing resumes the loop
  (`FirmwareStories.InterruptedNeverCompletes`).
- The sweeper's start guards against a second timer only if starts do not overlap (`Sweeper.TidyIff`).
- A 5xx response is left out of the cache so that the request can be retried, but its marker stays, and a
  retry is refused for two minutes (`Idempotency.RetryAfterServerError`).
- The marker of a key lasts two minutes from the moment the cache takes it, while the handler starts when the
  answer is back: executions of a key start two minutes apart less the longest wait for that answer, and only if
  reads and marks of the key do not overlap and the cache is up for them (`IdempotencySpacing.SpacingIff`). The
  comment in `setInProgress` says that its `NX` prevents the race, but the answer is not looked at
  (`IdempotencySpacing.OverlapBreaks`).
- A stop of the sweeper during a start is lost (`Sweeper.StopHoldsIff`).
- The 60 s margin of the sweeper avoids the race it is meant to avoid exactly when the delays of insert,
  timer, final update and database clock add up to no more than 60 s (`CommandSafety.MarginIsExact`).
- Events reach the stream in outbox order only while no publish is refused: one refusal puts an event
  behind its successors (`RelayLedger.OrderIffNeverRefused`).
- No run loses an event if and only if the move to the dead-letter stream after a last attempt cannot throw;
  the code marks the row published either way (`RelayLoss.NothingLostIff`).
- A vendor id that contains "::" or ends in ":" shares keys with another vendor
  (`DataTransfer.SeparableIffIsolated`), and so does a message id equal to the default marker.
- The lookup cache of bulk registration also keeps misses: a charger gets no manufacturer if its channel's
  manufacturer was created after an earlier row had asked for it (`BulkCache.CacheTransparentIff`).
- That cache is a plain object, so a channel named like a property that every object inherits is not looked
  up, and its rows are rejected (`BulkTable.InheritedNameRejected`).
- Ids beyond counter 9999999 stay distinct but have more than seven digits (`StationIds.StationIdForm`).
- The bill always uses 3500 VND/kWh: the price of a pending row is replaced at its start, and an unmatched
  start has none (`SessionLedger.BillsReplay`).

## Model

| member | source | states |
|---|---|---|
| `RelaySafety.PendingFromSpec` | packages/core/src/outbox/outboxRelay.ts:63-70 | the pending query returns exactly the unpublished rows with attempts left, each as it is, in ascending id order |
| `RelaySafety.BatchSpec` | packages/core/src/outbox/outboxRelay.ts:63-70 | a batch of at most 100 skips no unpublished row below its last id, every row of it is current, and one of fewer than 100 holds every unpublished row with attempts left |
| `RelaySafety.NextKeeps` | packages/core/src/outbox/outboxRelay.ts:59-135 | every step, crash included, keeps the invariant: one tick at most, published rows attempted and delivered or given up, attempts in id order, no unpublished row out of attempts |
| `RelaySafety.RunKeeps` | packages/core/src/outbox/outboxRelay.ts:59-135 | the relay invariant holds along every run |
| `RelayLedger.NextBalances` | packages/core/src/outbox/outboxRelay.ts:86-128 | every step keeps the books: attempts of a row = counted + marked + uncounted + in flight, stream copies = marked + unmarked + lost acknowledgements + awaiting mark |
| `RelayLedger.AtMostOneTick` | packages/core/src/outbox/outboxRelay.ts:30-61 | for all timer firings, starts, stops and crashes at most one tick is past the guard, and the flag says whether there is one |
| `RelayLedger.NoLoss` | packages/core/src/outbox/outboxRelay.ts:59-135 | a committed event is still selectable, or in the stream, or in the dead-letter stream; the sole exception is a move there that threw on the last attempt |
| `RelayLoss.ThrowingMoveLoses` | packages/core/src/outbox/outboxRelay.ts:92-127 | a run of ten refused publishes and a move that throws, after which the event is in neither stream and never selected again |
| `RelayLoss.NothingLostIff` | packages/core/src/outbox/outboxRelay.ts:92-127 | no run loses an event if and only if no move to the dead-letter stream can throw |
| `RelayStop.StopEndsPublishing` | packages/core/src/outbox/outboxRelay.ts:41-61 | after a stop or a crash no tick passes the guard in any later run without a start, and once the tick in flight has ended nothing is published, dead-lettered, counted or marked any more |
| `RelayStop.StopIsImmediateIff` | packages/core/src/outbox/outboxRelay.ts:41-61 | a stop takes effect at once, in all later runs without a start, if and only if no tick is in flight |
| `RelayStop.EmptyTickChangesNothing` | packages/core/src/outbox/outboxRelay.ts:59-75 | a tick whose query fails, or that finds nothing pending, changes nothing |
| `RelayLedger.AttemptsInOrder` | packages/core/src/outbox/outboxRelay.ts:63-87 | whenever an id is attempted, every smaller id has been attempted before, across ticks, aborted ticks and crashes |
| `RelayLedger.AttemptsBounded` | packages/core/src/outbox/outboxRelay.ts:92-127 | at most ten attempts per event plus those whose accounting failed or was lost |
| `RelayLedger.CopiesBounded` | packages/core/src/outbox/outboxRelay.ts:87-91 | at most one stream copy per event plus its failed or lost marks and its lost acknowledgements |
| `RelayLedger.StreamInOrder` | packages/core/src/outbox/outboxRelay.ts:63-91 | in a run without refused publishes an entry follows entries of all smaller ids |
| `RelayLedger.StreamIsPrefix` | packages/core/src/outbox/outboxRelay.ts:63-91 | in a run without failed publishes and failed or lost marks the stream is a prefix of the outbox |
| `RelayLedger.RefusalReorders` | packages/core/src/outbox/outboxRelay.ts:92-127 | a concrete run in which one refused publish leaves a stop in the stream without its start |
| `RelayLedger.OrderIffNeverRefused` | packages/core/src/outbox/outboxRelay.ts:76-129 | the stream is in outbox order in all runs if and only if publishes cannot be refused |
| `RelayTick.AfterTickIsRun` | packages/core/src/outbox/outboxRelay.ts:59-135 | one undisturbed tick is a run of the state machine, so its theorems cover ticks |
| `RelayDrain.AfterTicksIsRun` | packages/core/src/outbox/outboxRelay.ts:32-34 | so is any number of ticks, with any events committed in between |
| `RelayDrain.TickDrops` | packages/core/src/outbox/outboxRelay.ts:63-127 | for every c, a tick whose database updates succeed takes at least min(100, waiting) attempts off the first c rows, whatever the publishes do and whatever comes after these rows |
| `RelayDrain.RowIsPublished` | packages/core/src/outbox/outboxRelay.ts:63-127 | with the database up, a row is published after work/100 + 10 ticks, where the work is the attempts left to it and to the rows before it: events committed in the meantime never delay it |
| `RelayDrain.DrainBound` | packages/core/src/outbox/outboxRelay.ts:63-127 | so all rows are published after the work of all of them, at most ten per waiting row, over 100 plus 10 ticks |
| `OutboxRelayProgram.OutboxRelay.StartOutboxRelay` | packages/core/src/outbox/outboxRelay.ts:30-39 | starting twice keeps one timer |
| `OutboxRelayProgram.OutboxRelay.StopOutboxRelay` | packages/core/src/outbox/outboxRelay.ts:44-50 | stopping clears the timer and nothing else; StopEndsPublishing says what that ends |
| `OutboxRelayProgram.OutboxRelay.WriteOutbox` | packages/core/src/outbox/outboxWriter.ts:41-56 | appends one unpublished row with no attempts |
| `OutboxRelayProgram.OutboxRelay.TryPublish` | packages/core/src/outbox/outboxRelay.ts:86-92 | publish then mark is the two steps of the machine, and fails unless both succeed |
| `OutboxRelayProgram.OutboxRelay.HandleFailure` | packages/core/src/outbox/outboxRelay.ts:92-128 | the catch block is the dead-letter and accounting steps; it leaves the loop exactly when the row update throws |
| `OutboxRelayProgram.OutboxRelay.ProcessEvent` | packages/core/src/outbox/outboxRelay.ts:76-129 | the loop body refines the row's steps |
| `OutboxRelayProgram.OutboxRelay.Tick` | packages/core/src/outbox/outboxRelay.ts:59-135 | with another tick in flight nothing happens; otherwise the loop over the batch computes the tick's run and keeps the invariant |
| `OutboxRelayProgram.OutboxRelay.Loop` | packages/core/src/outbox/outboxRelay.ts:76-134 | the loop stops at a failed row update and otherwise takes every row in order |
| `Billing.CostIsFloor` | packages/core/src/ocpp/handlers/stopTransaction.handler.ts:73-75 | the energy is the difference of the readings, never negative, and 1000 cost <= energy * price < 1000 (cost + 1) |
| `Billing.CostMonotone` | packages/core/src/ocpp/handlers/stopTransaction.handler.ts:73-75 | a later reading never costs less |
| `Billing.SplitLosesAtMostOne` | packages/core/src/ocpp/handlers/stopTransaction.handler.ts:73-75 | billing in two parts at an intermediate reading loses at most 1 VND and never gains |
| `Sessions.AutoStop` | packages/core/src/ocpp/handlers/bootNotification.handler.ts:85-88 | afterwards no chosen row runs; rows that were not running or not chosen are untouched |
| `Sessions.TimeOut` | packages/core/src/jobs/processors/sessionTimeout.processor.ts:6-19 | afterwards every pending row is younger than five minutes; only pending rows change, and only to Failed |
| `SessionLedger.StartKeeps` | packages/core/src/ocpp/handlers/startTransaction.handler.ts:68-176 | a start of a new or pending row, with its event, keeps the session invariant |
| `SessionLedger.StopKeeps` | packages/core/src/ocpp/handlers/stopTransaction.handler.ts:54-114 | a stop, with its bill and event, keeps the session invariant |
| `SessionLedger.NotifyKeeps` | packages/core/src/ocpp/handlers/statusNotification.handler.ts:97-190 | a status notification, auto-stop included, keeps the session invariant |
| `SessionLedger.NextKeeps` | packages/core/src/ocpp/handlers/startTransaction.handler.ts:40-176 | all five writers keep the invariant that ties status, OCPP id, start events, stop events and bills together |
| `SessionLedger.EndStatesAbsorb` | packages/core/src/ocpp/handlers/startTransaction.handler.ts:40-146 | no handler or job moves a Stopped or Failed transaction, or brings a running one back to Pending |
| `SessionLedger.StaleStartRevives` | packages/core/src/ocpp/handlers/startTransaction.handler.ts:40-146 | a start whose lookup ran before the timeout job and whose update runs after it revives the failed session: the atomicity convention is needed |
| `SessionRaces.EndedStaysIff` | packages/core/src/ocpp/handlers/startTransaction.handler.ts:40-146 | with lookups and writes as separate steps: an ended transaction keeps its status in all later runs if and only if no start that found it pending, and, for a failed one, no auto-stop that listed it, is still to be written |
| `SessionRaces.SplitIsWhole` | packages/core/src/ocpp/handlers/stopTransaction.handler.ts:54-114 | a lookup and its write with nothing in between are the whole handler |
| `SessionRaces.CrashSettles` | packages/core/src/ocpp/handlers/startTransaction.handler.ts:40-146 | after a crash an ended transaction keeps its status in all later runs |
| `SessionLedger.StartEventsAgree` | packages/core/src/ocpp/handlers/startTransaction.handler.ts:68-176 | exactly one TransactionStarted if the row's OCPP id is set, which is then its own id, and none otherwise |
| `SessionLedger.StopFollowsStart` | packages/core/src/ocpp/handlers/stopTransaction.handler.ts:54-114 | every TransactionStopped has a TransactionStarted of the same transaction, station, session and first reading earlier in the outbox |
| `SessionLedger.BillsReplay` | packages/core/src/ocpp/handlers/stopTransaction.handler.ts:69-106 | the row's last reading, cost, price and end time are those of its last TransactionStopped; a row without one has no bill |
| `SessionLedger.StopsAreBilled` | packages/core/src/ocpp/handlers/stopTransaction.handler.ts:69-106 | in every run each stop event bills the difference of its own readings at 3500 VND/kWh, rounded down, and states it in kWh |
| `SessionLedger.RowsAreBilled` | packages/core/src/ocpp/handlers/stopTransaction.handler.ts:69-89 | in every run a row has a cost exactly if it has a last reading, and it is that of its own two readings at 3500 VND/kWh |
| `SessionLedger.RedeliveryIsIdempotent` | packages/core/src/ocpp/handlers/stopTransaction.handler.ts:54-159 | re-delivering a StopTransaction, whatever else happened since, changes no transaction row and repeats the event word for word; it sets the connector to Available again, whatever the connector does by then |
| `SessionStories.RowsAreExplained` | packages/core/src/ocpp/handlers/startTransaction.handler.ts:40-206 | in every run every field of a transaction row is what a message said: its origin, its first reading and start time, its bill, its end and the reason for it |
| `SessionStories.EventsAreExplained` | packages/core/src/ocpp/handlers/startTransaction.handler.ts:68-176 | in every run every start and stop event carries what its message said and what its row has kept |
| `SessionEffects.StartActivates` | packages/core/src/ocpp/handlers/startTransaction.handler.ts:40-46 | a start that names a waiting session of its station finds that row and no other, and starts it with one event |
| `SessionEffects.StartCreates` | packages/core/src/ocpp/handlers/startTransaction.handler.ts:48-125 | a start that names no waiting session of its station gets a row of its own, unless its keys are taken |
| `SessionEffects.StopBills` | packages/core/src/ocpp/handlers/stopTransaction.handler.ts:54-67 | a stop bills exactly the transaction that it numbers, if its own station started it, and else changes nothing |
| `SessionEffects.BootStopsItsOwn` | packages/core/src/ocpp/handlers/bootNotification.handler.ts:75-88 | a boot stops exactly the running transactions of its own station |
| `SessionEffects.AvailableStopsItsOwn` | packages/core/src/ocpp/handlers/statusNotification.handler.ts:177-191 | an available connector ends exactly its own running transactions |
| `SessionEffects.TimeoutFailsTheOld` | packages/core/src/jobs/processors/sessionTimeout.processor.ts:6-19 | the job fails exactly the sessions that have waited for more than five minutes |
| `SessionHandlers.CoreDatabase.FindPending` | packages/core/src/ocpp/handlers/startTransaction.handler.ts:40-46 | returns a pending row of the session and station, or none if there is none |
| `SessionHandlers.CoreDatabase.FindStarted` | packages/core/src/ocpp/handlers/stopTransaction.handler.ts:54-60 | returns a row of the station with that OCPP id, or none if there is none |
| `SessionHandlers.CoreDatabase.HandleStartTransaction` | packages/core/src/ocpp/handlers/startTransaction.handler.ts:32-206 | both branches of the handler are its step; the id it answers is that of a row that is now active and carries it |
| `SessionHandlers.CoreDatabase.HandleStopTransaction` | packages/core/src/ocpp/handlers/stopTransaction.handler.ts:46-164 | lookup, bill, row update, event and connector update are its step; an unknown transaction changes nothing |
| `SessionHandlers.CoreDatabase.HandleBootNotification` | packages/core/src/ocpp/handlers/bootNotification.handler.ts:41-88 | one StationOnline, and no transaction of the station left running if the sweep succeeds |
| `SessionHandlers.CoreDatabase.HandleStatusNotification` | packages/core/src/ocpp/handlers/statusNotification.handler.ts:57-191 | connector row, status event, fault events and auto-stop are its step; connector 0 touches none of them |
| `SessionHandlers.CoreDatabase.ProcessSessionTimeout` | packages/core/src/jobs/processors/sessionTimeout.processor.ts:6-24 | the job is its step and keeps the invariant |
| `FaultLog.NotifyLogs` | packages/core/src/ocpp/handlers/statusNotification.handler.ts:77-175 | a notification stores its code, none for a missing, empty or "NoError" one, and keeps table and fault log in agreement for every connector |
| `FaultLog.FaultsReconstruct` | packages/core/src/ocpp/handlers/statusNotification.handler.ts:101-175 | the outbox alone gives every connector's error code back, as long as no station is deleted with a connector in fault |
| `FaultLog.OnlyFaultyDeletionBreaks` | packages/core/src/services/station.service.ts:131-174 | that condition is exact: such a deletion breaks the agreement and no other step does |
| `FaultLog.ClearsAlternate` | packages/core/src/ocpp/handlers/statusNotification.handler.ts:147-175 | between two FaultCleared of a connector there is a FaultRaised, deletions included |
| `FaultLog.StaleReadHidesClear` | packages/core/src/ocpp/handlers/statusNotification.handler.ts:101-175 | a notification that read the connector before a fault was raised, and writes after it, clears the table and not the log: the atomicity convention is needed |
| `FaultLog.WriteLogsIff` | packages/core/src/ocpp/handlers/statusNotification.handler.ts:101-175 | for a write that goes by any earlier read: it leaves table and log in agreement unless it has no error, read none and the log has one; it clears only what was raised unless it has no error, read one and the log has none |
| `StatusNotices.NoticeMeans` | packages/core/src/ocpp/handlers/statusNotification.handler.ts:57-175 | the status and code that a notification stores, and the events that it logs, in terms of the message and the code stored before |
| `StatusNotices.CodeIsLastSaid` | packages/core/src/ocpp/handlers/statusNotification.handler.ts:107-138 | in every run a connector's stored code is what the last notification about it said, and none after its station was deleted |
| `StatusNotices.RaisesAreReports` | packages/core/src/ocpp/handlers/statusNotification.handler.ts:143-166 | in every run the faults raised for a connector are the codes of its notifications, all of them, once each and in order |
| `EndToEnd.ConsumerSeesStartFirst` | packages/core/src/outbox/outboxRelay.ts:63-91 | through handlers, outbox and relay, a consumer has a session's start before any stop of it, as long as no publish is refused |
| `EndToEnd.DrainedSessionsDelivered` | packages/core/src/outbox/outboxRelay.ts:59-135 | when nothing is pending, every handler's event is in the stream or the dead-letter stream, or its move there threw |
| `EndToEnd.TicksDeliver` | packages/core/src/outbox/outboxRelay.ts:59-135 | from any reachable state without a tick in flight, work/100 + 10 ticks with the database up bring a handler's event into the stream or the dead-letter stream, unless its move there throws; the work is that of the event and those before it, and new events do not delay it |
| `Firmware.LatestOpenExists` | packages/core/src/ocpp/handlers/firmwareStatusNotification.handler.ts:100-108 | the lookup of the open row updated last always has an answer |
| `Firmware.NextKeeps` | packages/core/src/services/firmwareCampaign.service.ts:117-172 | dispatch, notifications, counts, cancellation, station deletion and crashes keep the invariant that ties the loop index to the rows |
| `Firmware.QueuedIffUnreached` | packages/core/src/services/firmwareCampaign.service.ts:126-171 | a row is queued exactly while the loop has not reached its target, or if the loop's update did not reach the row |
| `Firmware.CompletedMeansDone` | packages/core/src/ocpp/handlers/firmwareStatusNotification.handler.ts:130-149 | completed is only set after the loop handled every target, with every row installed, failed or send_error |
| `Firmware.FinishedIsForever` | packages/core/src/ocpp/handlers/firmwareStatusNotification.handler.ts:97-127 | installed, failed and send_error rows never change again, and once a campaign is completed, its dispatch is over and all its rows are done in all later states |
| `Firmware.CompletedIsPermanentIff` | packages/core/src/services/firmwareCampaign.service.ts:207-218 | a completed campaign keeps its status in all later states if and only if no cancellation that read it running is still to write |
| `Firmware.LateCancelOverwrites` | packages/core/src/services/firmwareCampaign.service.ts:207-218 | a count between the read and the write of a cancellation leaves a finished campaign cancelled |
| `Firmware.LateCancelReachable` | packages/core/src/services/firmwareCampaign.service.ts:117-172 | a run that leads to the state in which that happens |
| `Firmware.StaleReportReopens` | packages/core/src/ocpp/handlers/firmwareStatusNotification.handler.ts:97-127 | an update whose lookup ran before the row was installed, written afterwards, reopens the row, even in a completed campaign: the atomicity convention is needed |
| `FirmwareRaces.DoneStaysIff` | packages/core/src/ocpp/handlers/firmwareStatusNotification.handler.ts:97-127 | with lookup and update as separate steps: a done row keeps its status in all later runs if and only if no update of it to another status, looked up while it was open, is still to be written |
| `FirmwareRaces.CrashSettles` | packages/core/src/ocpp/handlers/firmwareStatusNotification.handler.ts:97-127 | after a crash a done row keeps its status in all later runs |
| `FirmwareStories.RowIsLastWord` | packages/core/src/ocpp/handlers/firmwareStatusNotification.handler.ts:35-127 | in every run a target has a row exactly if its campaign was started, and the row, with its times and error, is what the last start, dispatch or report about it said |
| `FirmwareStories.InstalledIff` | packages/core/src/ocpp/handlers/firmwareStatusNotification.handler.ts:35-127 | a row is installed if and only if a stored report said "Installed" |
| `FirmwareStories.FailedIff` | packages/core/src/ocpp/handlers/firmwareStatusNotification.handler.ts:35-127 | a row has failed if and only if a stored report said "DownloadFailed" or "InstallationFailed", and its error is that word |
| `FirmwareStories.OtherReportsChangeNothing` | packages/core/src/ocpp/handlers/firmwareStatusNotification.handler.ts:35-112 | every other status, and a report without a row that waits, changes nothing |
| `FirmwareStories.DeletionFreezesRows` | packages/core/src/services/station.service.ts:165-168 | deleting a station unlinks exactly its rows, which never change again |
| `FirmwareStories.CompletesIff` | packages/core/src/ocpp/handlers/firmwareStatusNotification.handler.ts:130-149 | a count completes its campaign exactly if count and update succeed and every row is installed, failed or send_error |
| `FirmwareStories.CancelsIff` | packages/core/src/services/firmwareCampaign.service.ts:207-218 | an undisturbed cancellation cancels exactly a running campaign |
| `FirmwareStories.InterruptedNeverCompletes` | packages/core/src/services/firmwareCampaign.service.ts:117-172 | after a crash during the dispatch the remaining targets stay queued and the campaign never completes |
| `Firmware.RowsConsistent` | packages/core/src/ocpp/handlers/firmwareStatusNotification.handler.ts:115-127 | a row has an end time exactly if it is done and an error exactly if it failed or could not be sent |
| `FirmwareProgram.FirmwareCampaigns.StartCampaign` | packages/core/src/services/firmwareCampaign.service.ts:38-87 | refuses inactive firmware, no targets and duplicate targets; otherwise one queued row per target |
| `FirmwareProgram.FirmwareCampaigns.DispatchTarget` | packages/core/src/services/firmwareCampaign.service.ts:126-171 | offline, accepted and failed sends are one dispatch step each |
| `FirmwareProgram.FirmwareCampaigns.DispatchAll` | packages/core/src/services/firmwareCampaign.service.ts:117-172 | the loop is the run that dispatches to every target once, in order |
| `FirmwareProgram.FirmwareCampaigns.HandleNotification` | packages/core/src/ocpp/handlers/firmwareStatusNotification.handler.ts:92-130 | maps the status and updates the open row as its step, and tells whether a count follows |
| `FirmwareProgram.FirmwareCampaigns.CountAndComplete` | packages/core/src/ocpp/handlers/firmwareStatusNotification.handler.ts:130-149 | completes the campaign exactly if the count succeeded with zero and the update succeeded |
| `FirmwareProgram.FirmwareCampaigns.UnlinkStation` | packages/core/src/services/station.service.ts:165-168 | the rows of a deleted station stay, without their station |
| `FirmwareProgram.FirmwareCampaigns.BeginCancel` | packages/core/src/services/firmwareCampaign.service.ts:207-214 | refuses a campaign that is not running; otherwise the cancellation is under way |
| `FirmwareProgram.FirmwareCampaigns.FinishCancel` | packages/core/src/services/firmwareCampaign.service.ts:215-218 | writes cancelled over whatever the status has become |
| `PendingRequests.WaitKeepsIff` | packages/core/src/ocpp/pendingRequests.ts:12-21 | waiting keeps "in the map iff unsettled iff timer armed" exactly when the id is not awaited already |
| `PendingRequests.SettleKeeps` | packages/core/src/ocpp/pendingRequests.ts:23-39 | an answer settles the waiter with its own outcome and removes it; a late answer changes nothing |
| `PendingRequests.ExpireKeeps` | packages/core/src/ocpp/pendingRequests.ts:14-17 | an expiry rejects its own promise with the timeout message and removes its id; a cleared timer does nothing |
| `PendingRequests.SettledExactlyOnce` | packages/core/src/ocpp/pendingRequests.ts:12-40 | over any interleaving of replies, errors and expiries a promise is settled by one call, and an unsettled one is in the map with its timer armed |
| `PendingRequests.SettledStays` | packages/core/src/ocpp/pendingRequests.ts:23-40 | later answers change nothing about a settled promise |
| `PendingRequests.ReusedIdLosesReply` | packages/core/src/ocpp/pendingRequests.ts:12-21 | an id awaited twice at once loses the second waiter's reply |
| `PendingRequests.Waiters.WaitFor` | packages/core/src/ocpp/pendingRequests.ts:12-21 | a new unsettled promise with an armed timer, under its id |
| `PendingRequests.Waiters.ResolveReply` | packages/core/src/ocpp/pendingRequests.ts:23-30 | resolves only a waiter in the map, clears its timer and removes it |
| `PendingRequests.Waiters.RejectReply` | packages/core/src/ocpp/pendingRequests.ts:32-39 | the same for an error |
| `PendingRequests.Waiters.TimerFires` | packages/core/src/ocpp/pendingRequests.ts:14-17 | the expiry removes its id and rejects its own promise |
| `CommandErrors.ReadError` | packages/core/src/ocpp/commands/_sender.ts:111-126 | the imperative reading of an error message is the function the theorems are about |
| `CommandErrors.ExpiryReadsAsTimeout` | packages/core/src/ocpp/commands/_sender.ts:112-126 | an expired timer is recorded as a timeout |
| `CommandErrors.CallErrorRoundTrip` | packages/core/src/ocpp/commands/_sender.ts:115-124 | code and trimmed description are read back exactly if and only if the code is not empty, has no colon and no space at its ends |
| `CommandErrors.CallErrorIsErrorIff` | packages/core/src/ocpp/commands/_sender.ts:113-126 | a charger's error is recorded as an error exactly when neither code nor description contains "timeout" in any case |
| `CommandErrors.CallErrorReadAsTimeout` | packages/core/src/ocpp/commands/_sender.ts:113-126 | a concrete charger error that is recorded as a timeout |
| `Commands.Cleaned` | packages/core/src/services/ocppCommandResult.service.ts:26-39 | afterwards no row is pending, and no other row changed |
| `Commands.Swept` | packages/core/src/services/ocppCommandResult.service.ts:48-65 | afterwards no stale row is left, and only stale rows changed |
| `Commands.NextKeeps` | packages/core/src/ocpp/commands/_sender.ts:42-159 | every step keeps waiting senders, waiters, rows and result events in agreement |
| `Commands.NextSafe` | packages/core/src/services/ocppCommandResult.service.ts:48-65 | with delays within the margin every step keeps rows of live senders pending and rows written at most once |
| `CommandSafety.SweepSparesLive` | packages/core/src/services/ocppCommandResult.service.ts:48-65 | with delays within 60 s a sweep never writes the row of a live sender |
| `CommandSafety.OneTerminalStatus` | packages/core/src/ocpp/commands/_sender.ts:42-159 | over all runs with crashes and restarts a row gets one terminal status and keeps it |
| `CommandSafety.ResultEventOnce` | packages/core/src/ocpp/commands/_sender.ts:78-153 | at most one result event per message id, and exactly one if and only if the sender wrote the row |
| `CommandStories.RowTellsAnswer` | packages/core/src/ocpp/commands/_sender.ts:78-153 | in every run an answered row is completed if and only if a reply answered it, with the reply's status or "Accepted" in its event, and else timeout or error by the message, in row and event alike; any other row is pending or timed out and has no event |
| `CommandStories.AnswerResumes` | packages/core/src/ocpp/commands/_sender.ts:75-156 | an answer resumes exactly the waiting sender of its id, whose final update records it with one event; without one it changes nothing |
| `CommandStories.RowWasInserted` | packages/core/src/ocpp/commands/_sender.ts:42-59 | in every run a row carries the charger and the stamp that it was inserted with |
| `CommandSafety.NothingStaysPending` | packages/core/src/jobs/schedulers/ocppCommandSweeper.scheduler.ts:14-37 | a sweep leaves only young rows pending, a restart none |
| `CommandSafety.SlowCommandWrittenTwice` | packages/core/src/services/ocppCommandResult.service.ts:48-65 | for any delays beyond the margin, a run in which one row gets two terminal statuses |
| `CommandSafety.MarginIsExact` | packages/core/src/services/ocppCommandResult.service.ts:46-65 | rows are written once in all runs if and only if the delays add up to at most 60 s |
| `CommandProcess.Process.InsertPending` | packages/core/src/ocpp/commands/_sender.ts:42-59 | the pending row, or none if the insert fails, and the sender goes on either way |
| `CommandProcess.Process.RegisterAndSend` | packages/core/src/ocpp/commands/_sender.ts:61-70 | the waiter is registered with its timer before the reply can come |
| `CommandProcess.Process.OnCallResult` | packages/core/src/ocpp/commands/_sender.ts:75-76 | a reply resumes only the sender that waits for its id |
| `CommandProcess.Process.OnCallError` | packages/core/src/ocpp/commands/_sender.ts:111-112 | an error resumes the sender with "code: description" |
| `CommandProcess.Process.OnTimer` | packages/core/src/ocpp/pendingRequests.ts:14-17 | an expiry resumes the sender with the timeout message |
| `CommandProcess.Process.FinishCommand` | packages/core/src/ocpp/commands/_sender.ts:78-156 | row and result event together, or neither |
| `CommandProcess.Process.BootstrapCleanup` | packages/core/src/services/ocppCommandResult.service.ts:26-39 | cleans the rows and counts those that were pending |
| `CommandProcess.Process.SweepStalePending` | packages/core/src/services/ocppCommandResult.service.ts:48-65 | sweeps the rows and counts those that changed |
| `CommandProcess.Process.EnterStart` | packages/core/src/jobs/schedulers/ocppCommandSweeper.scheduler.ts:14-15 | a start goes on exactly if the variable holds no timer |
| `CommandProcess.Process.FinishStart` | packages/core/src/jobs/schedulers/ocppCommandSweeper.scheduler.ts:17-41 | cleans up, and then sets the timer, also when the cleanup fails |
| `CommandProcess.Process.StopSweeper` | packages/core/src/jobs/schedulers/ocppCommandSweeper.scheduler.ts:43-49 | clears the timer that the variable holds |
| `Sweeper.TidyIff` | packages/core/src/jobs/schedulers/ocppCommandSweeper.scheduler.ts:14-49 | a step keeps "the variable tells whether the one timer ticks" exactly if it does not start the sweeper while another start still cleans up |
| `Sweeper.SingleTimer` | packages/core/src/jobs/schedulers/ocppCommandSweeper.scheduler.ts:14-49 | with starts that do not overlap there is never a second timer, and a stop leaves none |
| `Sweeper.OverlappingStartsLeak` | packages/core/src/jobs/schedulers/ocppCommandSweeper.scheduler.ts:15-36 | two overlapping starts leave two timers, of which a stop clears one |
| `Sweeper.StopDuringStartIsLost` | packages/core/src/jobs/schedulers/ocppCommandSweeper.scheduler.ts:15-49 | a stop while the start still cleans up is lost |
| `Sweeper.StopHoldsIff` | packages/core/src/jobs/schedulers/ocppCommandSweeper.scheduler.ts:14-49 | in every run: after a stop no timer ticks until a new start, in all later runs, if and only if no start is under way and no timer ticks but the variable's |
| `CommandProcess.Process.BootAndListen` | apps/core-server/src/bootstrap.ts:22-44 | the cleanup runs before the server listens, with one timer from then on |
| `CommandProcess.Process.CrashProcess` | packages/core/src/ocpp/pendingRequests.ts:10-10 | waiters and senders are gone, the tables stay |
| `Connections.NextKeeps` | packages/core/src/ocpp/connectionManager.ts:8-31 | connects, closes, errors and forced disconnects keep the registry exact against its history |
| `Connections.RegistryIsExact` | packages/core/src/ocpp/connectionManager.ts:8-35 | the registry holds a socket for a station if and only if it is the latest registered for it and no close, error or forced disconnect has hit it |
| `Connections.StaleEventsIgnored` | packages/core/src/ocpp/server.ts:84-95 | a late close or error of a replaced socket changes neither registry nor events |
| `Connections.ConnectionSurvives` | packages/core/src/ocpp/server.ts:65-131 | a registered connection survives whatever happens to all other sockets |
| `Connections.OneOfflinePerSocket` | packages/core/src/ocpp/server.ts:84-123 | a socket yields at most one StationOffline |
| `Connections.OfflineIffCurrentCloses` | packages/core/src/ocpp/server.ts:84-123 | StationOffline is written if and only if the station's registered socket closes and the event can be stored, and the entry goes with it |
| `Connections.ReplacedCloses` | packages/core/src/ocpp/connectionManager.ts:8-27 | a new socket is registered and open, the replaced one starts closing and is never open again, and all others stay as they were |
| `Connections.DisconnectCloses` | packages/core/src/ocpp/gateway.impl.ts:115-121 | a forced disconnect unregisters exactly its station, whose socket is never open again |
| `Connections.ShutsIff` | packages/core/src/ocpp/server.ts:65-131 | an open socket leaves that state exactly by its own events, a replacement or a forced disconnect |
| `Connections.ConnectionManager.Register` | packages/core/src/ocpp/connectionManager.ts:8-27 | the new socket replaces an existing one, which starts closing |
| `Connections.ConnectionManager.IsConnected` | packages/core/src/ocpp/connectionManager.ts:37-40 | connected means that the latest socket, hit by nothing, is open |
| `Connections.ConnectionManager.OnClose` | packages/core/src/ocpp/server.ts:84-123 | the close callback is its step |
| `Connections.ConnectionManager.OnError` | packages/core/src/ocpp/server.ts:125-130 | the error callback is its step |
| `Connections.ConnectionManager.Disconnect` | packages/core/src/ocpp/gateway.impl.ts:115-121 | terminates and unregisters the current socket; nothing happens without one |
| `StationPath.ExtractedIsPlain` | packages/core/src/ocpp/server.ts:15-27 | an extracted station id is never empty and has no slash |
| `StationPath.PathsRoundTrip` | packages/core/src/ocpp/server.ts:15-27 | both path forms give their id back, the legacy form unless the id is "ocpp" |
| `StationPath.ExtractIff` | packages/core/src/ocpp/server.ts:15-27 | a path under /ocpp/ names its last piece unless that is "ocpp"; any other path names its only piece, and nothing if it has several |
| `Idempotency.NextKeeps` | packages/core/src/internal-api/idempotency.middleware.ts:39-118 | every step keeps all cached and replayed responses genuine |
| `Idempotency.ReplaysAreGenuine` | packages/core/src/internal-api/idempotency.middleware.ts:95-115 | under every interleaving, outage and crash a replayed response was produced by an execution of the same key, with a status below 500 |
| `IdempotencySpacing.MarksSpaced` | packages/core/src/internal-api/idempotency.middleware.ts:85-104 | if no read of a key falls between another request's read and mark of it and the cache is up for both, its marks are 120 s apart, or less if a mark may follow its read by more than a day less two minutes |
| `IdempotencySpacing.ExecutionsSpaced` | packages/core/src/internal-api/idempotency.middleware.ts:85-117 | then executions of the key start that far apart less the longest wait for the answer to a mark |
| `IdempotencySpacing.SpacingIff` | packages/core/src/internal-api/idempotency.middleware.ts:85-117 | exact: under given rules for overlap, outages, the time from read to mark and the wait for its answer, executions of a key start `gap` apart in all runs if and only if nothing overlaps, the cache is up, and `gap` is at most that distance |
| `IdempotencySpacing.OverlapBreaks` | packages/core/src/internal-api/idempotency.middleware.ts:85-117 | a read before another request's mark: both execute at once |
| `IdempotencySpacing.ReadDownBreaks` | packages/core/src/internal-api/idempotency.middleware.ts:39-49 | a read during an outage counts as a miss, and the request executes beside the one that marked |
| `IdempotencySpacing.MarkDownBreaks` | packages/core/src/internal-api/idempotency.middleware.ts:51-58 | a mark lost to an outage blocks nobody |
| `IdempotencySpacing.SlowAnswer` | packages/core/src/internal-api/idempotency.middleware.ts:104-117 | for every bound on the wait, a run in which the first handler starts that late and the second as soon as the marker has expired |
| `IdempotencySpacing.LateMarkBreaks` | packages/core/src/internal-api/idempotency.middleware.ts:51-67 | a mark that comes after a later response was stored, and does not replace it, protects only as long as that response lives |
| `Idempotency.RetryAfterServerError` | packages/core/src/internal-api/idempotency.middleware.ts:104-115 | in every run, after a marked request of a key that answers with a 5xx status, a retry is refused for two minutes and goes on to run from then on, provided no other request of the key marks or stores in between |
| `Idempotency.StoredIsReplayed` | packages/core/src/internal-api/idempotency.middleware.ts:60-67 | a stored response below 500 answers every request of its key for a day, exactly as it is, unless another response is stored over it |
| `Idempotency.OutageFailsOpen` | packages/core/src/internal-api/idempotency.middleware.ts:39-67 | with the cache down a request goes on, and neither marks nor stores anything |
| `Idempotency.CrashEndsRequests` | packages/core/src/internal-api/idempotency.middleware.ts:103-117 | a request that has not started at a crash never does, and the cache keeps its entries |
| `Idempotency.Middleware.GetCached` | packages/core/src/internal-api/idempotency.middleware.ts:39-49 | the live entry, or nothing when expired, absent or the cache is down |
| `Idempotency.Middleware.Receive` | packages/core/src/internal-api/idempotency.middleware.ts:85-101 | refuses a key in progress, replays a completed one, lets a miss through |
| `Idempotency.Middleware.SetMarker` | packages/core/src/internal-api/idempotency.middleware.ts:103-104 | the mark, after which the request awaits its answer |
| `Idempotency.Middleware.Continue` | packages/core/src/internal-api/idempotency.middleware.ts:104-117 | the answer, and the start of the handler |
| `Idempotency.Middleware.Json` | packages/core/src/internal-api/idempotency.middleware.ts:109-115 | responses below 500, and only those, go on to be cached |
| `Idempotency.Middleware.FinishCaching` | packages/core/src/internal-api/idempotency.middleware.ts:60-67 | the caching that the response did not wait for |
| `StationIds.StationIdRoundTrip` | packages/core/src/services/provision.service.ts:119-129 | the counter can be read back from the id, so different counters give different ids |
| `StationIds.StationIdForm` | packages/core/src/services/provision.service.ts:127-128 | "EN" and digits only, seven of them exactly while the counter is at most 9999999 |
| `Provisioning.NextKeeps` | packages/core/src/services/provision.service.ts:25-189 | numbers are drawn in increasing order, a station belongs to one record, a provisioned record's station has a password |
| `Provisioning.IssuedIdsDistinct` | packages/core/src/services/provision.service.ts:119-129 | over any run no generated id is issued twice |
| `Provisioning.StationIdStable` | packages/core/src/services/provision.service.ts:59-93 | with no provisioning of the record in flight that holds another id or none, every later one returns the record's id until the record or the station is deleted, fails only with its transaction, and rotates only that station's password |
| `Provisioning.IdIsPermanentIff` | packages/core/src/services/provision.service.ts:25-93 | a record's station id survives every run without those deletions if and only if no provisioning of the record is in flight with another id or with none |
| `Provisioning.SoleProvisioningSettles` | packages/core/src/services/provision.service.ts:60-93 | a provisioning that commits while no other one of its record is in flight meets that condition |
| `Provisioning.SecondCommitReplaces` | packages/core/src/services/provision.service.ts:69-93 | of two provisionings in flight with different ids both succeed, and the second replaces the id that the first returned |
| `Provisioning.OverlappingCallsReplaceId` | packages/core/src/services/provision.service.ts:27-93 | two overlapping calls for a charger without an id lead there, with nothing deleted |
| `Provisioning.RevocationHoldsIff` | packages/core/src/services/provision.service.ts:285-291 | a revocation survives every run without an operator's deletion or rejection if and only if no provisioning of the charger is in flight |
| `ProvisioningRules.RegistersIff` | packages/core/src/services/provision.service.ts:131-189 | a registration is refused if and only if the serial is known or the client id is in use; otherwise the record has exactly what was given |
| `ProvisioningRules.ProvisionsIff` | packages/core/src/services/provision.service.ts:25-60 | a provisioning is refused exactly for an unknown charger, another manufacturer's, or a rejected or revoked one; otherwise it holds the record's station id or else its client id |
| `ProvisioningRules.CommitsIff` | packages/core/src/services/provision.service.ts:69-93 | a commit is granted exactly if its transaction succeeds, the record exists and no other record has the station, and writes nothing but its station, password and status |
| `ProvisioningRules.NumbersConsecutive` | packages/core/src/services/provision.service.ts:119-129 | in every run the numbers issued are 1000001 and its successors, without a gap |
| `ProvisioningRules.DrawsOnce` | packages/core/src/services/provision.service.ts:60-60 | only a call without an id draws a number, which it keeps in print |
| `ProvisioningRules.RecordsAreRegistered` | packages/core/src/services/provision.service.ts:131-189 | in every run a record's manufacturer and client id are those that it was registered with |
| `ProvisioningRules.OperatorsWriteOneThing` | packages/core/src/services/provision.service.ts:285-296 | revoking, rejecting and deleting change what they name and nothing else |
| `ProvisioningRules.BarredStaysRefused` | packages/core/src/services/provision.service.ts:25-60 | a revoked or rejected charger with no provisioning in flight is refused in all later runs until its record is deleted |
| `ProvisioningRules.CrashSettles` | packages/core/src/services/provision.service.ts:25-93 | after a crash a record's station id and a revocation hold until an operator changes them |
| `Provisioning.ProvisionService.GenerateStationId` | packages/core/src/services/provision.service.ts:119-129 | the next number, printed, and different from every id issued before |
| `Provisioning.ProvisionService.RegisterCharger` | packages/core/src/services/provision.service.ts:131-189 | refuses a known serial and a client id in use; otherwise a registered record, with its station if a client id is given |
| `Provisioning.ProvisionService.BeginProvision` | packages/core/src/services/provision.service.ts:25-60 | the refusals in their order, or a call in flight with the id that the record gives |
| `Provisioning.ProvisionService.DrawStationId` | packages/core/src/services/provision.service.ts:60-60 | a call without an id gets the next one; a call with one keeps it |
| `Provisioning.ProvisionService.CommitProvision` | packages/core/src/services/provision.service.ts:69-93 | station, password and record are written together or not at all, without another look at the record |
| `Provisioning.ProvisionService.ProvisionCharger` | packages/core/src/services/provision.service.ts:25-117 | an undisturbed call is the three steps; a granted id is the record's, and its station has the new password |
| `Provisioning.ProvisionService.RevokeCharger` | packages/core/src/services/provision.service.ts:285-291 | only the record's status changes |
| `BulkCache.CacheIsFirst` | packages/core/src/services/provision.service.ts:232-251 | the cache knows exactly the channels asked for so far, each as its first lookup found it |
| `BulkCache.CacheTransparentIff` | packages/core/src/services/provision.service.ts:225-266 | whatever happens between rows, the loop with its cache gives the report and table of the loop without if and only if no inserted row is of a channel that stood for another manufacturer when it was first asked for |
| `BulkCache.StaleMeansCreated` | packages/core/src/services/manufacturer.service.ts:22-52 | as manufacturers are only added, such a row is one whose manufacturer was created after an earlier row had asked for it |
| `BulkCache.CreatedBetweenIsMissed` | packages/core/src/services/provision.service.ts:232-251 | a run of two rows of one channel, whose manufacturer is created in between: the second charger gets none, and a direct lookup finds it |
| `BulkRegister.ProvisioningTable.BulkRegister` | packages/core/src/services/provision.service.ts:225-266 | for all rows, and all manufacturers, other registrations and database answers at each row, counters, errors and table are those of the cached loop, whose relation to direct lookups CacheTransparentIff gives |
| `BulkTable.ReportBalances` | packages/core/src/services/provision.service.ts:229-265 | registered + skipped = total, the table grows by the registered rows and by what other calls register, errors = skipped minus blank serials |
| `BulkTable.ErrorsAreExact` | packages/core/src/services/provision.service.ts:234-263 | a row is inserted or skipped; a skipped row with a serial has one error with it, for the first reason that applies: charging value, known serial, channel, database |
| `BulkTable.TableIsExact` | packages/core/src/services/provision.service.ts:236-258 | a new serial is in the table if and only if another call or an acceptable row claims it; the first claim decides the entry, and a row's entry has the manufacturer that its channel had when it was first asked for; registered serials keep their entry |
| `BulkTable.InheritedNameRejected` | packages/core/src/services/provision.service.ts:234-250 | a channel named "constructor" gets its rows rejected, although the manufacturer exists |
| `DataTransfer.KeysApart` | packages/core/src/ocpp/handlers/dataTransfer.handler.ts:53-55 | keys of separable vendors are equal only for the same vendor and message |
| `DataTransfer.UnseparableCollides` | packages/core/src/ocpp/handlers/dataTransfer.handler.ts:53-55 | every other vendor id shares each of its keys with a separable one |
| `DataTransfer.ResolveIsTwoLevel` | packages/core/src/ocpp/handlers/dataTransfer.handler.ts:31-47 | after any registrations, resolving gives the last handler for the pair, else the vendor's default, else none |
| `DataTransfer.SeparableIffIsolated` | packages/core/src/ocpp/handlers/dataTransfer.handler.ts:40-55 | a vendor id is separable if and only if no clean registrations for other vendors let a message of it reach one of their handlers |
| `DataTransfer.MarkerIsDefault` | packages/core/src/ocpp/handlers/dataTransfer.handler.ts:53-55 | a handler registered under the default marker answers as the default |
| `DataTransfer.ForeignHandlerReached` | packages/core/src/ocpp/handlers/dataTransfer.handler.ts:40-47 | a message naming an unseparable vendor can reach another vendor's handler |
| `DataTransfer.RepliesExact` | packages/core/src/ocpp/handlers/dataTransfer.handler.ts:62-97 | the reply is that of the last handler registered for the message, UnknownVendorId exactly for vendors never registered, UnknownMessageId exactly for registered ones without a handler |
| `DataTransfer.DataTransferRegistry.RegisterHandler` | packages/core/src/ocpp/handlers/dataTransfer.handler.ts:31-38 | appends to the registrations the tables stand for, and tells whether a handler was overwritten |
| `DataTransfer.DataTransferRegistry.ResolveHandler` | packages/core/src/ocpp/handlers/dataTransfer.handler.ts:40-47 | answers as the two-level map does for clean registrations |

## Left out

Contracts that are weaker than one might expect:

- SessionLedger.EndStatesAbsorb: relies on atomic handlers, because with a lookup split from its update it is false (StaleStartRevives); EndedStaysIff has the exact condition.
- Firmware.FinishedIsForever: relies on atomic row updates, because with a lookup split from its update it is false (StaleReportReopens); DoneStaysIff has the exact condition.
- FaultLog.FaultsReconstruct: relies on atomic handlers (WriteLogsIff has the exact condition of a single write), and assumes that no station is deleted with a connector in fault, because otherwise it is false (OnlyFaultyDeletionBreaks).
- RelayLedger.NoLoss: allows the loss of an event whose move to the dead-letter stream threw, because the code marks it published all the same (NothingLostIff).
- RelayLedger.StreamInOrder: assumes that no publish is refused, because one refusal reorders the stream (OrderIffNeverRefused).
- EndToEnd.ConsumerSeesStartFirst: assumes that no publish is refused, for the same reason.
- RelayDrain.RowIsPublished: counts undisturbed ticks with the database up, because a tick whose updates fail may change nothing; new events come in between ticks.
- EndToEnd.TicksDeliver: counts ticks in the same way.
- Provisioning.StationIdStable: assumes that no provisioning of the record is in flight with another id or with none, because otherwise it is false (IdIsPermanentIff).
- IdempotencySpacing.ExecutionsSpaced: assumes that read and mark are not interleaved with those of the same key and that the cache is up for them, because otherwise it is false (SpacingIff).
- DataTransfer.ResolveIsTwoLevel: assumes separable vendor ids and no message id equal to the marker, because otherwise it is false (SeparableIffIsolated, MarkerIsDefault).
- PendingRequests.SettledExactlyOnce: assumes that an id is not awaited twice at once, which fresh message ids give, because otherwise it is false (ReusedIdLosesReply).
- FirmwareProgram.FirmwareCampaigns.DispatchAll: is one undisturbed loop; the state machine lets every other step happen between two targets.
- CommandProcess.Process.BootAndListen: is one call; the state machine lets nothing but the cleanup happen between boot and listening.

Not modelled:

- Stream trimming (`MAXLEN`), error texts stored with rows, and the cut of stored descriptions to 500 characters.
- IEEE rounding of the bill: the source multiplies doubles, the model multiplies reals.
- Handlers interleaved with each other inside one step, among them the two queries of the auto-stop.
- Station rows and their status, offline and fault log tables, site ids, and the charger's info and vendor fields.
- Meter values, the charge-goal queue and the settlement fields of a start event.
- The station update and event at the head of the firmware notification handler; the target filter of a campaign (targets are a parameter).
- Diagnostics requests that bypass `sendCommand`; a `ws.send` that throws.
- `getConnectedStationIds` and `getConnectionCount`, which filter the registry by `isConnected`.
- Failing database reads inside bulk registration, and the rounding of a stored `chargingKwh`.
- Password hashing (the hash is a parameter), the forced disconnect after re-provisioning, and `update` of a provisioning record.
- Routes, authentication, validation, logging, JSON parsing, statistics and the consumers of the stream.
