# Verified models of the lighting control system

Dafny models of eight parts of the system, with proofs about every input or every run. Each part
has its specification functions, where the source works in place a class or a loop proved against
them, and the theorems.

- **Schedules** (`Calendar`, `Recurrence`, `Schedules`, `Overlap`): recurring dates on a Gregorian
  calendar, their occurrences in a time zone, and the test whether two schedules overlap. A zone is
  any pair of functions between wall minutes and instants that obeys the laws named in a contract:
  `OrderedByDay` (a wall time a day later never resolves earlier), `DatesNeverRunBackwards` and
  `ResolvesWithinADay`. Instants are counted in minutes.
- **Vehicle-sensor firmware** (`EdgeQueue`, `EdgeHistory`, `DeliveryTable`, `DeliveryHistory`,
  `DeliveryPackets`, `DeliveryCounters`, `RuntimeSteps`, `RuntimeSafety`, `RuntimeRestart`, `RuntimeEpochs`,
  `RuntimeStale`, `RuntimeHistory`, `RuntimeRoom`, `RuntimeObject`): the interrupt handler and its
  edge queue, the at-least-once delivery table, and the stop protocol with its double-checked
  producer counter, as atomic steps that interleave freely.
- **Mesh transaction cache** (`TransactionCache`): 32 slots that stand in for an unbounded map.
- **Clock attestor** (`ClockTrust`, `ClockHistory`, `ClockCounting`, `ClockEvidence`, `ClockService`,
  `ClockAnswers`): the trust latch, what a run must
  have looked like for evidence to be given out, and the daemon that persists before it serves.
- **Ordered map pages** (`FragmentKeys`, `OrderedPages`, `PageStreams`, `PageContent`): the manifest
  check and the content check, and what they guarantee together.
- **Pilot** (`PilotSteps`, `PilotSafety`, `PilotRuns`, `PilotObject`, `LauncherScript`, `Launcher`,
  `LauncherSafety`, `LauncherStop`): the write-ahead journal of the pilot runtime under faults and stops at any await,
  and the handover protocol of its launcher with exceptions at any call.
- **Scan recovery publisher** (`RecoveryPublisher`, `PublisherRest`): drains and retry timers behind a generation fence,
  over a journal that takes its operations in turn
  (`exclusive` in apps/gateway/src/state/provisioning-scan-journal.ts). The publisher relies on that turn:
  an acknowledgement goes on before the operation after its reading settles, so a terminal stored in
  between still has its `scheduleRetry` to come.
- **CAD map** (`CadMap`): the logical map size and the fitted transform, in real arithmetic.

## Where the code falls short of a general claim

- `getNextOccurrence` starts at the local date of the instant. In a zone that skips a date, the
  occurrence of the skipped date can still lie ahead and is missed (`Schedules.SkippedDateIsMissed`).
  `Schedules.GetNextOccurrence` states exactly when the answer is right.
- `reset_runtime_session` stores zero in the producer counter. A producer that looked at the runtime
  before a stop and is still inside at the next start is then no longer counted, and a later stop can
  return OK around it. `RuntimeRestart.RestartIsSafeIffNoneInFlight` shows that a start keeps the
  guarantee if and only if the counter reads zero.
- The lifecycle epoch is checked before a command is executed, not together with it, so a reset can
  fall in between (`RuntimeEpochs.ResetCanOvertake`). `RuntimeEpochs.NothingRunsAfterItsResetIff` shows
  that a run executes no command after a reset that followed its stamp if and only if no reset is taken
  while the worker is executing a command of that session.
- Epochs restart from the session generation, so a stamp taken in an earlier session can pass in a
  later one (`RuntimeStale.StaleStampExists`). `RuntimeStale.StartForgetsIffNoneStamped` shows that a
  clean start rules this out if and only if no thread then holds a stamped command that is not counted.
- The launcher's `beginCleanup` call stands outside every handler. If it throws, a held lock is neither
  released nor preserved and a stopped original is not restarted (`LauncherSafety.CleanupMayNeverBegin`);
  `LauncherSafety.LockEndsOnce` has the exact condition. The repository's own port only assigns there.

## Model

| member | source | states |
|---|---|---|
| Calendar.CivilRoundTrip | packages/automation-engine/src/recurrence.ts:112-138 | every date is the existing year, month and day that the calendar functions name |
| Calendar.CivilUnique | packages/automation-engine/src/recurrence.ts:112-138 | every existing year, month and day is the date of exactly one day number, so days-in-month and leap years are right |
| Calendar.KnownDates | packages/automation-engine/src/recurrence.ts:112-138 | well-known dates of every month and around the leap days of 1900, 2000 and 2024 fall on their weekdays |
| Recurrence.SortedDaysSorts | packages/automation-engine/src/recurrence.ts:93 | the weekday list is a permutation of the rule's, in ascending order |
| Recurrence.WeeklyDates | packages/automation-engine/src/recurrence.ts:92-106 | the loop terminates and lists exactly the in-range dates on the rule's weekdays, each once, ascending, whatever the order of the weekdays in the rule |
| Recurrence.MonthlyDates | packages/automation-engine/src/recurrence.ts:107-124 | exactly the in-range dates on the monthly day, short months skipped, ascending; nothing without a monthly day |
| Recurrence.YearlyDates | packages/automation-engine/src/recurrence.ts:125-140 | exactly the in-range dates on the yearly month and day, 29 February only in leap years, ascending |
| Schedules.CandidateDates | packages/automation-engine/src/recurrence.ts:73-142 | for every recurrence kind and every range, exactly the matching in-range dates, each once, strictly ascending |
| Schedules.OccurrenceRuns | packages/automation-engine/src/recurrence.ts:38-62 | the occurrence of a date runs from the start time on that date to the one wall time within the next 24 hours that shows the end time, overnight if need be, and exists if and only if that takes any real time |
| Schedules.IterateOccurrences | packages/automation-engine/src/recurrence.ts:144-169 | exactly the occurrences of the whole schedule that start on the dates first..last, in date order |
| Schedules.OccurrenceNearby | packages/automation-engine/src/recurrence.ts:17-20 | an occurrence that meets an interval starts at most two local dates before its first instant, in every zone whose dates never run backwards and whose wall times resolve within a day |
| Schedules.GetOccurrences | packages/automation-engine/src/recurrence.ts:171-196 | exactly the occurrences of the whole schedule that meet the range, in date order |
| Schedules.GetActiveOccurrence | packages/automation-engine/src/recurrence.ts:198-212 | the earliest-dated occurrence of the whole schedule that contains the instant, or none if no occurrence does |
| Schedules.ActiveAgreesWithRange | packages/automation-engine/src/recurrence.ts:171-212 | the point query is the first element of the range query on [t, t + 1) |
| Schedules.GetNextOccurrence | packages/automation-engine/src/recurrence.ts:214-233 | right if and only if the occurrence of the local date before does not start after the instant |
| Schedules.SkippedDateIsMissed | packages/automation-engine/src/recurrence.ts:224-232 | a zone that skips a date, and a schedule, for which the next occurrence is missed |
| Overlap.IntervalsOverlap | packages/automation-engine/src/overlap.ts:26-52 | the two-pointer sweep is true if and only if some element of one list meets some element of the other, even where neighbours in one list overlap |
| Overlap.FarDatesDoNotMeet | packages/automation-engine/src/recurrence.ts:17-20 | occurrences three or more local dates apart never meet |
| Overlap.ClampKeepsMeetings | packages/automation-engine/src/overlap.ts:69-77 | occurrences that meet both start inside the comparison range, so the clamp loses none |
| Overlap.SchedulesOverlap | packages/automation-engine/src/overlap.ts:54-86 | a reported overlap is real in every zone, and in every zone where a wall time a day later never resolves earlier the answer is true if and only if both schedules are enabled, share a fixture and some occurrences meet over their whole active ranges |
| TransactionCache.Cache.IsDuplicate | apps/esp32-h2-firmware/main/mesh_transaction_cache.c:7-57 | the in-place scan answers and updates the 32 slots as the specification function of the old contents does |
| TransactionCache.EvictsOldestOnlyWhenFull | apps/esp32-h2-firmware/main/mesh_transaction_cache.c:25-56 | a live entry is displaced only when all slots are live, and then none is older |
| TransactionCache.DuplicatesAreReal | apps/esp32-h2-firmware/main/mesh_transaction_cache.c:7-57 | under any load a reported duplicate has a first sighting less than 6000 ms earlier |
| TransactionCache.CacheIsTheMap | apps/esp32-h2-firmware/main/mesh_transaction_cache.c:7-57 | with fewer than 32 other transactions open at each call, every answer is that of an unbounded first-seen map with a fixed, non-sliding window |
| TransactionCache.FullArrayForgets | apps/esp32-h2-firmware/main/mesh_transaction_cache.c:40-56 | in every state with all slots live, one more new key makes the cache forget a transaction that the map still holds open |
| TransactionCache.OneMoreIsTooMany | apps/esp32-h2-firmware/main/mesh_transaction_cache.c:40-56 | the bound is sharp: from the empty cache, 33 different keys at one instant and then one of them again are answered differently from the map |
| EdgeQueue.Driver.HandlerSends | apps/esp32-h2-firmware/main/vehicle_sensor_driver.c:190-213 | the handler queues the edge, or counts it as dropped and requests a resync |
| EdgeQueue.Driver.WorkOneStep | apps/esp32-h2-firmware/main/vehicle_sensor_driver.c:224-273 | each step of the worker loops has exactly the effect of the specification step |
| EdgeQueue.Driver.StartOneStep | apps/esp32-h2-firmware/main/vehicle_sensor_driver.c:307-424 | each step of the start routine, with its second reading under the lock, has exactly the effect of the specification step |
| EdgeQueue.QuietMeansCaughtUp | apps/esp32-h2-firmware/main/vehicle_sensor_driver.c:190-273 | in every interleaving, when the worker is blocked on an empty queue and no interrupt is pending, no resync is outstanding and the last published level is the pin's |
| EdgeQueue.EventsAlternate | apps/esp32-h2-firmware/main/vehicle_sensor_driver.c:19-34 | published events strictly alternate between detected and cleared |
| EdgeQueue.StepUsesWork | apps/esp32-h2-firmware/main/vehicle_sensor_driver.c:190-273 | every step other than a physical edge uses up a bounded amount of work |
| EdgeQueue.NeverStuck | apps/esp32-h2-firmware/main/vehicle_sensor_driver.c:190-273 | while the driver is not at rest some step other than an edge is enabled |
| EdgeQueue.SettlesOnThePin | apps/esp32-h2-firmware/main/vehicle_sensor_driver.c:190-273 | once the pin holds still, every schedule reaches rest after a bounded number of steps with the pin's level published |
| EdgeHistory.NothingIsLost | apps/esp32-h2-firmware/main/vehicle_sensor_driver.c:215-272 | at rest, in every interleaving that dropped nothing, the published levels are all changes among all levels read (boot, second reading, handler), in order |
| EdgeHistory.NothingTakenIsLost | apps/esp32-h2-firmware/main/vehicle_sensor_driver.c:224-272 | at rest, in every interleaving, they are all changes among the levels taken from the queue or sampled |
| EdgeHistory.ReadIsTakenOrHeld | apps/esp32-h2-firmware/main/vehicle_sensor_driver.c:180-272 | at any moment without a drop, the levels read are those taken up, then those queued, then the one in the handler's or the starting task's hand |
| EdgeHistory.DropsAreCounted | apps/esp32-h2-firmware/main/vehicle_sensor_driver.c:190-213 | the drop counter is the number of edges that met a full queue, up to the greatest 32-bit number |
| DeliveryTable.Model.SubmitEvent | apps/esp32-h2-firmware/main/vehicle_sensor_model.c:165-208 | the in-place submission has the effect of the specification on the 16 slots, counters and sequence |
| DeliveryTable.Model.ProcessTime | apps/esp32-h2-firmware/main/vehicle_sensor_model.c:210-230 | the loop over the slots has the effect of processing each slot in turn |
| DeliveryTable.Model.Acknowledge | apps/esp32-h2-firmware/main/vehicle_sensor_model.c:232-245 | the search and the freeing of the slot are the specification's |
| DeliveryTable.Model.NextDeadlineMs | apps/esp32-h2-firmware/main/vehicle_sensor_model.c:277-287 | the least due time of the occupied slots |
| DeliveryHistory.Conservation | apps/esp32-h2-firmware/main/vehicle_sensor_model.c:165-257 | over any run: accepted = acknowledged + exhausted + discarded + pending, each event meets exactly one end, and the give-up counter is exact although it saturates |
| DeliveryHistory.SequencesAreConsecutive | apps/esp32-h2-firmware/main/vehicle_sensor_model.c:172-207 | the k-th accepted event carries sequence k, without gap or reuse up to UINT32_MAX, and pending sequences are distinct |
| DeliveryHistory.PatienceIsBounded | apps/esp32-h2-firmware/main/vehicle_sensor_model.c:18-20 | no event is sent more than seven times, and one that is given up had been sent seven times; on a clock that does not wrap while a retry is outstanding it had been accepted at least 23,750 ms before |
| DeliveryHistory.AcknowledgementIsExact | apps/esp32-h2-firmware/main/vehicle_sensor_model.c:232-245 | an acknowledgement ends the pending event it names and no other, and only in this boot |
| DeliveryHistory.DeadlineIsAhead | apps/esp32-h2-firmware/main/vehicle_sensor_model.c:210-230 | after processing the time now the next deadline is later than now |
| DeliveryHistory.NothingBeforeDeadline | apps/esp32-h2-firmware/main/vehicle_sensor_model.c:277-287 | before the next deadline processing changes nothing and sends nothing |
| DeliveryPackets.SubmitExactly | apps/esp32-h2-firmware/main/vehicle_sensor_model.c:165-208 | a submission is accepted if and only if it is valid, a slot is free and a number is left; it then gets the next number and its packet is sent at once, and the answer says which case it was |
| DeliveryPackets.PacketsAreTheEvents | apps/esp32-h2-firmware/main/vehicle_sensor_model.c:165-230 | over any run every packet sent or kept with sequence k carries the boot id, and the kind and level of the k-th accepted submission |
| DeliveryPackets.ProcessExactly | apps/esp32-h2-firmware/main/vehicle_sensor_model.c:210-230 | processing a time sends every due packet again with a wait of 250 ms doubled per retry up to 8 s, gives up those retried six times, and touches nothing else |
| DeliveryPackets.ResetDiscardsAll | apps/esp32-h2-firmware/main/vehicle_sensor_model.c:253-257 | a reset discards every pending event and leaves none |
| DeliveryCounters.ReportsAreExact | apps/esp32-h2-firmware/main/vehicle_sensor_model.c:165-230 | over any run the reported level is that of the last valid submission, and the counters of full tables, missing numbers, failed and unconfigured sends count exactly that, up to the greatest 32-bit number |
| RuntimeObject.Runtime.ProducerEnqueues | apps/esp32-h2-firmware/main/vehicle_sensor_runtime.c:195-223 | the event limit and the send to either end of the queue |
| RuntimeObject.Runtime.WorkerMovesOn | apps/esp32-h2-firmware/main/vehicle_sensor_runtime.c:406-480 | each step of the worker loops has exactly the effect of the specification step |
| RuntimeObject.Runtime.ResetSession | apps/esp32-h2-firmware/main/vehicle_sensor_runtime.c:526-553 | the session reset, producer counter included |
| RuntimeSafety.StopIsFinal | apps/esp32-h2-firmware/main/vehicle_sensor_runtime.c:589-628 | from a stop that returned OK until the next start, in every interleaving: no producer is between acquire and release, the worker is parked on the current generation, and the queue is and stays empty |
| RuntimeRestart.RestartIsSafeIffNoneInFlight | apps/esp32-h2-firmware/main/vehicle_sensor_runtime.c:526-578 | a restart keeps that guarantee if and only if it finds the producer counter at zero |
| RuntimeEpochs.LateProducerExists | apps/esp32-h2-firmware/main/vehicle_sensor_runtime.c:174-189 | a producer that looked before the stop and counts itself after it is reachable, so the condition is not idle |
| RuntimeEpochs.EpochCheckIsExact | apps/esp32-h2-firmware/main/vehicle_sensor_runtime.c:385-389 | within a session the worker's check lets a command through if and only if no reset happened since it was stamped; what follows the check is the next row |
| RuntimeEpochs.NothingRunsAfterItsResetIff | apps/esp32-h2-firmware/main/vehicle_sensor_runtime.c:385-404 | in a run no command stamped before a reset of its session is executed after it, if and only if no reset is taken while the worker is executing a command of that session |
| RuntimeEpochs.TableIsFresh | apps/esp32-h2-firmware/main/vehicle_sensor_runtime.c:310-346 | once the worker has applied all resets, only events stamped after the last one are in the delivery table |
| RuntimeEpochs.ResetCanOvertake | apps/esp32-h2-firmware/main/vehicle_sensor_runtime.c:385-404 | a run from the initial state in which a reset falls between the check and the execution, so the condition of that row is not idle |
| RuntimeStale.StartForgetsIffNoneStamped | apps/esp32-h2-firmware/main/vehicle_sensor_runtime.c:526-553 | in every state that clean starts lead to, a further clean start lets no command of an earlier session be executed if and only if no thread holds a stamped command that is not counted |
| RuntimeStale.StaleStampCanPass | apps/esp32-h2-firmware/main/vehicle_sensor_runtime.c:544 | such a command is executed in the next session once its resets have brought the epoch to the stamp, whatever the stamp is |
| RuntimeStale.StaleStampExists | apps/esp32-h2-firmware/main/vehicle_sensor_runtime.c:544 | a run from the initial state, with one reset in its first session, after which the next session executes such a command without any reset |
| RuntimeHistory.CommandsAreConserved | apps/esp32-h2-firmware/main/vehicle_sensor_runtime.c:195-424 | in every interleaving each command that entered the queue is still in it or in the worker's hand, or met exactly one end: carried out, refused for its epoch, or thrown away by a drain or a session reset |
| RuntimeHistory.FirstInFirstOut | apps/esp32-h2-firmware/main/vehicle_sensor_runtime.c:195-424 | commands sent to the back are taken in the order they were sent, behind those already there |
| RuntimeHistory.TableIsWhatRan | apps/esp32-h2-firmware/main/vehicle_sensor_runtime.c:310-404 | the delivery table holds exactly the commands carried out since it was cleared last, in order |
| RuntimeRoom.EventsLeaveRoom | apps/esp32-h2-firmware/main/vehicle_sensor_runtime.c:195-223 | in every interleaving the queue holds at most 23 events and one more per producer thread |
| RuntimeRoom.OnlyTheLimitRefuses | apps/esp32-h2-firmware/main/vehicle_sensor_runtime.c:195-223 | a command is refused only if it is an event and 24 commands are waiting, or if 32 are |
| ClockTrust.ClockTrustState.Observe | scripts/clock-attestor/core.py:311-335 | an observation updates the fields as the specification says, generations and latch reason included |
| ClockTrust.ClockTrustState.RecordSample | scripts/clock-attestor/core.py:340-378 | a sample is admitted, ignored or rejected as the specification says |
| ClockTrust.ClockTrustState.Approve | scripts/clock-attestor/core.py:389-401 | approval clears the current generations, and only for uid 0 on the current observation |
| ClockHistory.EvidenceIsEarned | scripts/clock-attestor/core.py:311-424 | over every run evidence is given out only if a uid-0 approval, on at least three accepted samples with strictly increasing issue times since the last disturbance, has been followed by steady, matching observations only |
| ClockHistory.DriftIsBounded | scripts/clock-attestor/core.py:326-333 | over n observations since the approval the wall clock drifted at most 10 n ms from continuous time |
| ClockHistory.EvidenceHasLittleDrift | scripts/clock-attestor/core.py:403-424 | that bound for every evidence that is given out |
| ClockHistory.BudgetIsExact | scripts/clock-attestor/core.py:340-378 | an admitted sample has |offset| + uncertainty + bracket of at most 98 ms, its wire values sum to at most 98 ms, and the wire offset is within half a microsecond |
| ClockHistory.EvidenceIsWithinBudget | scripts/clock-attestor/core.py:340-424 | the same for whatever a consumer reads in evidence |
| ClockHistory.EvidenceCanBeEarned | scripts/clock-attestor/core.py:311-424 | a run from the first boot that is given evidence: three samples on a matching clock, an approval of that observation, one more steady reading |
| ClockCounting.GenerationsCount | scripts/clock-attestor/core.py:264-335 | over any run the step generation is the persisted one plus one for the boot plus the malformed observations and the readings that do not move along with the one before; the failover generation is the persisted one plus the departures from the primary; both up to 2^53 - 1, and the state is fatal if and only if one would exceed it |
| ClockEvidence.ApprovedExactly | scripts/clock-attestor/core.py:311-401 | the state is approved if and only if an effective approval was followed by steady readings on the primary only |
| ClockEvidence.AcceptedExactly | scripts/clock-attestor/core.py:340-378 | a sample is accepted if and only if its parts, rounded up to microseconds, make at most 98 ms, it is at most 1 s old and 100 ms early and not older than the one before, the latest reading was on the primary, and nothing has run out |
| ClockEvidence.EvidenceExactly | scripts/clock-attestor/core.py:403-424 | evidence is given out if and only if the state is so approved and a sample stands that is at most 1 s old and 100 ms early; it carries that sample |
| ClockEvidence.ReasonExactly | scripts/clock-attestor/core.py:403-418 | a refusal gives the first reason that applies, told from the run |
| ClockEvidence.ApprovesWhatWasSeen | scripts/clock-attestor/core.py:389-401 | while the observation id stays the same no sample comes or goes and no generation moves, so an approval approves exactly what the status with that id showed |
| ClockEvidence.ClearedExactly | scripts/clock-attestor/core.py:389-401 | cleared generations are those of the last effective approval, or else the persisted ones |
| ClockService.Producer.PersistNow | scripts/clock-attestor/daemon.py:99-108 | generations are written when they differ from the last successful write; a failure stops the service |
| ClockService.Producer.ObserveSystem | scripts/clock-attestor/daemon.py:110-117 | the bracket grows with the drift seen during a collection, and the observation is persisted |
| ClockService.Producer.Handle | scripts/clock-attestor/daemon.py:172-198 | the answer to a request is the specification's, on the state after a persisted observation |
| ClockService.GenerationsStayOrdered | scripts/clock-attestor/daemon.py:99-117 | across any number of restarts cleared generations never exceed current ones, on disk and in memory, and approved means cleared equals current |
| ClockService.BootRisesAboveServed | scripts/clock-attestor/core.py:237-268 | a boot starts unapproved, with a step generation above every one ever served |
| ClockService.ServedIsPersisted | scripts/clock-attestor/daemon.py:172-198 | evidence and status carry exactly the generations of the last successful write |
| ClockService.ServedEvidenceIsEarned | scripts/clock-attestor/daemon.py:172-198 | across restarts, served evidence is backed by a uid-0 approval of the same boot, given on three accepted samples with strictly increasing issue times since the last disturbance, and followed by steady, matching observations only |
| ClockService.ServedEvidenceIsWithinBudget | scripts/clock-attestor/daemon.py:172-198 | across restarts, the sample in served evidence was accepted in the same boot, and both it and its wire form keep the 98 ms budget |
| ClockService.SilentAfterFailure | scripts/clock-attestor/daemon.py:99-117 | in every run, from an event whose needed write fails until the next crash, every request is answered by a refusal or not at all |
| ClockService.FailingRequestIsSilent | scripts/clock-attestor/daemon.py:172-198 | the request during which the needed write fails is not answered otherwise either |
| ClockService.BracketIsHonest | scripts/clock-attestor/daemon.py:110-170 | the bracket handed in with a sample is the greatest drift of any observation since the collection began |
| ClockAnswers.StatusTellsTheTruth | scripts/clock-attestor/daemon.py:172-198 | across restarts a status tells the revision and the samples counted of the run so far, and approved exactly if the state is; after an approval request it always is |
| ClockAnswers.CollectionStartsExactly | scripts/clock-attestor/daemon.py:124-146 | a collection starts if and only if none is running, the service is up, the request valid, the clock readable, and the last collection a second old or the request insists |
| ClockAnswers.CollectionGoesOn | scripts/clock-attestor/daemon.py:110-170 | until its sample is handed in or lost a running collection keeps its origin, and its bracket only grows |
| FragmentKeys.CompareSign | packages/shared/src/map-display-pages.ts:12-15 | keys compare equal if and only if they are the same, and the comparison is antisymmetric |
| FragmentKeys.CompareTransitive | packages/shared/src/map-display-pages.ts:12-15 | the comparison is transitive, strictly where one side is strict |
| FragmentKeys.CompareIsBelow | packages/shared/src/map-display-pages.ts:12-15 | a key is below another if and only if its zIndex is smaller, or that is equal and its element id ends first or has the smaller code unit where the two part, or both are equal and its fragment order is smaller |
| OrderedPages.Refine | packages/shared/src/map-display-contracts.ts:40-69 | no issue is raised if and only if every tile is covered by its pages and every stream, sorted by sequence, is numbered from zero, in key order and made of proper continuations |
| OrderedPages.EachRecordInOnePage | packages/shared/src/map-display-pages.ts:51-52 | in a covered tile every record lies in exactly one page |
| PageStreams.SortedSorts | packages/shared/src/map-display-contracts.ts:54 | the sort permutes the pages of a stream into ascending sequence |
| PageStreams.SplitsIntoGroups | packages/shared/src/map-display-contracts.ts:55-67 | the neighbour-by-neighbour check holds if and only if the stream is a sequence of ungrouped pages and complete fill groups numbered 0..n with one final page |
| PageContent.Validate | packages/shared/src/map-display-pages.ts:44-73 | decoded content is accepted if and only if the pages cut the records into consecutive pieces and each page describes its piece: layer, strict key order, end keys, fill style and point count |
| PageContent.PaintOrder | packages/shared/src/map-display-pages.ts:24-73 | if manifest and contents are accepted, exactly the records of each cell, LOD and layer are painted, page after page with strictly increasing keys, page i has sequence i, and the stream splits into plain pages and complete groups |
| PilotObject.PilotRuntime.AfterSave | apps/gateway/scripts/bio-sensor-event-pilot-runtime.ts:47-131 | what each job does when a journal write settles |
| PilotObject.PilotRuntime.AfterPort | apps/gateway/scripts/bio-sensor-event-pilot-runtime.ts:47-131 | what each job does when a port call settles |
| PilotObject.PilotRuntime.PulseJob | apps/gateway/scripts/bio-sensor-event-pilot-runtime.ts:64-87 | which notifications are accepted, and their effect up to the first await |
| PilotObject.PilotRuntime.PortWrites | apps/gateway/scripts/bio-sensor-event-pilot-runtime.ts:32-42 | a normal write starts only if mayWrite allows it at that moment |
| PilotSafety.JournalCoversWrites | apps/gateway/scripts/bio-sensor-event-pilot-runtime.ts:43-131 | at every moment of every run the journal names every luminaire whose write has started and whose restore has not succeeded |
| PilotSafety.WritesAreAnnounced | apps/gateway/scripts/bio-sensor-event-pilot-runtime.ts:54-56 | a normal write starts only on a luminaire that the journal already names |
| PilotSafety.NoWriteAfterHalt | apps/gateway/scripts/bio-sensor-event-pilot-runtime.ts:32-42 | after any step that leaves the run stopping or degraded no normal write starts, whatever follows |
| PilotSafety.HaltedExactly | apps/gateway/scripts/bio-sensor-event-pilot-runtime.ts:32-105 | a run is stopping or degraded if and only if one of its steps was a stop, a fault, a check that found the cap reached, or a failed port call or journal write of a start, pulse or tick |
| PilotSafety.NoWriteFromTheCapOn | apps/gateway/scripts/bio-sensor-event-pilot-runtime.ts:32-98 | a write on luminaire B starts only in a started run and less than 300 s after its start, and a write on A only before the start |
| PilotSafety.ClosedMeansNothingPending | apps/gateway/scripts/bio-sensor-event-pilot-runtime.ts:123-125 | the phase closed, in memory or in the journal, means that nothing is pending |
| PilotSafety.StopOutcomeIsExact | apps/gateway/scripts/bio-sensor-event-pilot-runtime.ts:103-132 | stop succeeds if and only if none of its steps and no journal write of the run failed, and then the journal says closed and no luminaire is left changed |
| PilotSafety.HoldIsRespected | apps/gateway/scripts/bio-sensor-event-pilot-runtime.ts:78-98 | a tick sets out to switch the luminaire back only after the hold time since the pulse accepted last |
| PilotRuns.TickExactly | apps/gateway/scripts/bio-sensor-event-pilot-runtime.ts:88-98 | an idle tick sets out to switch back if and only if the run is not halted, the luminaire is switched, and the hold time has passed since the pulse accepted last |
| PilotRuns.PulseExactly | apps/gateway/scripts/bio-sensor-event-pilot-runtime.ts:64-76 | which notifications an idle run takes up: well formed, at most 3 s old, before the cap, ahead of the last by 1 to 127 on the 8-bit circle, and no bounce within 250 ms |
| PilotRuns.PilotWorks | apps/gateway/scripts/bio-sensor-event-pilot-runtime.ts:47-132 | with calls that succeed a fresh run starts, takes a pulse, switches back at the deadline and stops with everything restored and the journal closed |
| Launcher.Launcher.RunLauncher | apps/gateway/scripts/bio-sensor-event-pilot-launcher.ts:53-104 | whatever its calls bring, with or without beginCleanup, the launcher makes exactly the calls of the script, and throws exactly when the script says |
| LauncherSafety.LockEndsOnce | apps/gateway/scripts/bio-sensor-event-pilot-launcher.ts:74-101 | there is an attempt of release or preserve if and only if the lock is held and beginCleanup did not throw; it is one, and the last call |
| LauncherSafety.DiagnosticOnlyAfterHandOver | apps/gateway/scripts/bio-sensor-event-pilot-launcher.ts:66-71 | the diagnostic starts at most once, and only after the original was confirmed down and then the USB device free |
| LauncherSafety.RestartOnlyWhenOver | apps/gateway/scripts/bio-sensor-event-pilot-launcher.ts:76-97 | the original is restarted at most once, only after the diagnostic reported terminal or absent, the original down as approved and the USB device free, and no diagnostic starts in between or later |
| LauncherSafety.ReleaseExactlyWhenSafe | apps/gateway/scripts/bio-sensor-event-pilot-launcher.ts:55-101 | a held lock is released if and only if beginCleanup did not throw, and no stop was attempted, or restart, postflight, final evidence and any required journal check succeeded |
| LauncherSafety.SmoothRunSucceeds | apps/gateway/scripts/bio-sensor-event-pilot-launcher.ts:62-103 | when every call brings what is wanted, the whole handover runs, the trial is recorded as complete, the lock released, and nothing is thrown |
| LauncherSafety.CleanupMayNeverBegin | apps/gateway/scripts/bio-sensor-event-pilot-launcher.ts:74-101 | a throwing beginCleanup ends a run with the original stopped and the lock held: nothing is restarted and the lock neither released nor preserved |
| LauncherStop.StopOnlyWhenReady | apps/gateway/scripts/bio-sensor-event-pilot-launcher.ts:62-67 | the original is stopped at most once, only with the lock held, no diagnostic there, the probe passed and the start consumed, and after that the approval, files and original checked again and the stop announced |
| LauncherStop.StartIsAnnounced | apps/gateway/scripts/bio-sensor-event-pilot-launcher.ts:66-71 | the diagnostic starts only after all that, a further check of the files and its announcement |
| LauncherStop.RestartIsAnnounced | apps/gateway/scripts/bio-sensor-event-pilot-launcher.ts:96 | the original is restarted only after the announcement of the restart |
| LauncherStop.LastWord | apps/gateway/scripts/bio-sensor-event-pilot-launcher.ts:92-98 | the final evidence is recorded if and only if the postflight passed; it says complete exactly if the diagnostic ended well and the final journal was good |
| RecoveryPublisher.ProvisioningScanRecoveryPublisher.FinishDrain | apps/gateway/src/gateway.ts:321-341 | what a drain does when it settles, behind the identity and generation fence |
| RecoveryPublisher.ProvisioningScanRecoveryPublisher.ArmRetryTimer | apps/gateway/src/gateway.ts:344-352 | a timer is armed only if none is armed, no drain runs and the connection is current |
| RecoveryPublisher.OneOwner | apps/gateway/src/gateway.ts:217-371 | in every interleaving: never both a connected drain and a retry timer, neither while disconnected, both of the current connection |
| RecoveryPublisher.LateCompletionIsFenced | apps/gateway/src/gateway.ts:229-231 | the completion of a drain of an older connection changes nothing |
| RecoveryPublisher.BackoffDoubles | apps/gateway/src/gateway.ts:344-352 | the k-th timer armed since the last reset waits min(initial * 2^k, max) |
| RecoveryPublisher.CoverageIsLostExactly | apps/gateway/src/gateway.ts:268-284 | every step keeps a retry owner for stored terminals, except exactly an acknowledgement that acts on a reading the journal has outgrown |
| RecoveryPublisher.NothingIsStranded | apps/gateway/src/gateway.ts:268-284 | in every run in which the journal takes its operations in turn (no scheduleRetry for a store, and no recovered terminal, between an empty reading and what follows it), a stored terminal always has a retry timer, a drain that will see it, or a scheduleRetry still to come |
| RecoveryPublisher.StaleAcknowledgementStrands | apps/gateway/src/gateway.ts:275-284 | why the publisher needs that turn: a run outside it, which the journal does not admit, would leave a terminal without a retry |
| PublisherRest.RestsOnEmptyJournal | apps/gateway/src/gateway.ts:321-371 | while the journal stays empty and readable a connected publisher does at most five things by itself, and then has no timer, no drain and a backoff that starts over |
| CadMap.NormalizeMapSize | packages/shared/src/cad-scene-contracts.ts:719-756 | rejects exactly invalid bounds and aspect ratios above 64; otherwise long side 16384..32768, short side 512..16384, padding 64 up to a quarter of the short side, grid a multiple of 5 in 10..100 nearest to a two-hundredth of the long side or 100, and both sides the same multiple of the source up to rounding |
| CadMap.SourceLandsInside | packages/shared/src/cad-scene-contracts.ts:758-774 | every point of the source box lands inside the padding |
| CadMap.SourceIsCentredAndTight | packages/shared/src/cad-scene-contracts.ts:758-774 | the source box is centred on the map and reaches the padding on both sides of one axis |
| CadMap.OrderOfImages | packages/shared/src/cad-scene-contracts.ts:768-773 | the transform keeps the horizontal order and turns the vertical one over |

## Left out

- Real IANA zone data and the range limits of the date library; a zone is any pair of functions under the stated laws.
- The holiday and weekend exclusion of a date, an arbitrary predicate per schedule.
- Generator laziness: candidate dates and occurrences are lists.
- Rule fields outside their schema (weekdays outside 1..7, minutes outside a day); schedule members require a valid schedule.
- Constructors that throw on options out of range: the object's constructor requires options in range (hold time of the pilot, retry bounds of the publisher, persisted generations of the clock state).
- Floating point and decimal rounding: clock, pilot and CAD arithmetic is over the reals; rounding steps of the source are modelled where it rounds on purpose.
- JSON, uuid and hash functions: observation ids are revisions, stream keys are tuples.
- Request parsing, peer checks, sockets, launchd and the SNTP subprocess of the clock daemon; a collection and a write may bring any result. A waiter's second reading is one more sampling event with an invalid request.
- An exception of reading the clock is an event only at the end of a collection, where it counts as a failed sample; anywhere else it changes nothing and answers nothing.
- An observation that is not a finite reading ends a sample request in the clock service model; the source may carry such a reading into a collection.
- Weaker memory orders than sequential consistency in the firmware, and more than 2^32 threads or resets in one session.
- The interrupt model assumes one core, on which the handler preempts tasks and never the reverse, interrupts masked inside critical sections, and the interrupt status cleared before the handler reads the pin.
- EdgeQueue.Driver.StartOneStep: the failure exits of the start routine and the stop routine are not modelled, nor are time stamps of edges.
- RuntimeObject.Runtime.ProducerEnqueues: the drop counter, the fault mask and the recovery flag of a full queue are not modelled.
- RuntimeObject.Runtime.WorkerMovesOn: retries, publications, fault health and packet codecs of a worker round are not modelled, and the delivery table records every command carried out, of whichever kind.
- RuntimeObject.Runtime.ResetSession: the separate stores of the session reset are one atomic step.
- RuntimeEpochs.EpochCheckIsExact: speaks of the check alone, within one session; the execution that follows it is RuntimeEpochs.NothingRunsAfterItsResetIff, later sessions are RuntimeStale.StartForgetsIffNoneStamped.
- RuntimeSafety.StopIsFinal: assumes that starts find the producer counter at zero; the exact condition is RuntimeRestart.RestartIsSafeIffNoneInFlight.
- DeliveryHistory.PatienceIsBounded: the age of 23,750 ms is claimed only for a 64-bit millisecond clock that does not wrap while a retry is outstanding.
- Overlap.SchedulesOverlap: exact only in zones ordered by day; in any other zone only "a reported overlap is real" is claimed.
- Durable journal contents of the pilot are one snapshot; the file system below it is not part of this model.
- PilotSteps.BeginStop: the order in which queued jobs begin is left open, which allows more runs than the serial queue has; the 30 s recovery timeout appears only as failing restores.
- The publishing loop, timeouts and abort of a drain in the recovery publisher; a drain reads the journal once and settles.
- Approval contents and files of the launcher: validation at a given moment is a call that may throw, as is the cancellation check.
- The launcher checks for cancellation between asking for the original's state and judging it; here the answer is judged first. The calls made and the outcome are the same.
- The host side of the launcher ports, and argument parsing.
- The schemas of manifests, tiles and primitives apart from ordered pages, and the tile ledger of CAD manifests.
- Everything else of the repository: gateway wiring, adapters, web and mobile clients, API modules.
