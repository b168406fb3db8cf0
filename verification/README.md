# Workforce management: a verified model

This project models the state and delivery protocols of the workforce service and proves what they guarantee over whole
runs. `dafny verify dfyconfig.toml` checks all of it.

**Outbox and relays** (`Outbox`, `OutboxOrder`, `Relay`, `Encoders`). A use case stores encoded messages with its
aggregates; relays claim unpublished rows, send, mark and commit. `Outbox` is a step system for any number of relays in
which every send may be refused, delivered after all, or cut off by a crash. `Relay` is one pass as the code runs it, proved
to be a run of that system.

**Analytics projector** (`Projection`, `BreakAccounting`, `HourlyCounts`, `ReadModels`, `Reports`, `Projector`,
`ProjectorOrder`, `ApplyOrder`, `Redelivery`, `Consumer`, `Handling`, `EndToEnd`, `CommittedCounts`). The rollup as a fold
over events and as counts over the history, its two stores and what a report tells, the mark / apply / dead-letter / commit
protocol as a step system for any number of consumers of one group, the order in which they apply events, what they lose and
what redelivery can still apply, the message handler as the code runs it and what it does for each event, and the composition
of all of it with the outbox, as a fold and in numbers.

**Associates and assignments** (`Associates`, `Assignments`, `UseCases`, `Concurrency`, `SerialRuns`, `WireJournal`,
`OutboxJournal`, `CallRules`, `Repositories`, `Services`). The aggregates, what each use case decides from what it loaded,
calls that run at once with loads taken at different times, calls that run one after the other, when exactly each call
succeeds and what it leaves, what the events and the committed rows tell a reader, and the use cases over repositories and a
joinable transaction. The wiring is that of cmd/workforce/main.go:456-464, where every use case has a unit of work.

**Replay caches** (`Readiness`, `CatalogueCache`, `PathCatalog`, `LaborCache`). The readiness gate both consumers share, the
last-writer-wins catalogue with its prefix lookup, and the running totals per task type.

**Planning** (`PathPlanning`, `ShiftPlanning`). Proposed heads and the idle trim; the shift-plan commit against a registry that
may change while it is asked.

`Base` and `Messages` hold shared vocabulary.

Conventions. Instants and durations are integers (nanoseconds), rates and shares are reals. What the outside world answers
(sends, marks, commits, registry counts, client replies, whether a publish fails) is a parameter, so every answer is covered.
`Concurrency.State.bases`, `Projector.State.applied` and `Outbox.State.log` are history variables: they record what happened
and influence nothing.

Where the code and its documentation differ, the model follows the code:

- internal/adapters/outbound/postgres/outbox_relay.go:32-35 says that skipping locked rows preserves per-key order between
  two overlapping relays. It does not: the second relay may send a later row of a stream first
  (`OutboxOrder.OverlappingRelaysReorder`). `OutboxOrder.SafeClaims` states exactly which claims are safe.
- internal/adapters/outbound/postgres/outbox_relay.go:29-32 counts on readers keyed by path_id alone. Order is kept per stream,
  so such a reader converges if rows of one path share a stream or become visible in id order
  (`OutboxOrder.PathSlotsAreRelated`), and may not otherwise (`OutboxOrder.PathOnlyReadersDiverge`).
- charts/workforce-management/values.yaml:297-313 and docs/docs/adr/0024-horizontal-autoscaling-and-pgxpool-tuning.md:98 say that
  correctness does not regress with two projectors. At-most-once does not; order does: a partition that moves while its former
  owner is applying a marked message may see two of its events applied the other way round
  (`ProjectorOrder.OverlappingConsumersReorder`). `ProjectorOrder.FetchIsSafeExactly` and
  `ApplyOrder.FetchKeepsOrderExactly` state exactly which fetches are safe.
- internal/adapters/inbound/kafka/analytics_consumer.go:298-303 calls the retry of a failed mark a fresh attempt. If the failed
  attempt was recorded after all, the retry sees a duplicate and the event is never applied. `Redelivery.LostExactly` lists
  all steps that leave a marked event unapplied for good, `Redelivery.CanApplyExactly` says what can still be applied.
- internal/adapters/outbound/kafkacatalog/consumer.go:102-106 describes readiness as having seen everything present at startup.
  With a gap just below a partition's startup watermark (a compacted or transactional log) the consumer also waits for one
  later message (`Readiness.GapMeansLate`); `Readiness.ReadinessExactly` is the exact condition.
- Version guards cover loaded aggregates. A fresh aggregate and a row just inserted are both at version 1, so a stale creator
  can overwrite such a row (`Concurrency.SecondCreatorWins`), and an assignment that closes nothing or an end that closes
  nothing does not save the row whose version would tell it is late; `Concurrency.MissesExactly` is the exact condition.

## Model

| member | source | states |
|---|---|---|
| `Outbox.NoLossNoPhantom` | internal/adapters/outbound/postgres/outbox_relay.go:114-202 | For every run of any number of relays, with crashes, refused sends, lost marks and lost commits anywhere: a row marked published was delivered, so every committed row is unpublished or delivered; every delivery is of a committed row; no row is in two live passes |
| `Outbox.RunKeepsInv` | internal/adapters/outbound/postgres/outbox_relay.go:114-202 | The invariant behind that, and: no row disappears, changes its message or loses its mark |
| `Outbox.StepKeepsInv` | internal/adapters/outbound/postgres/outbox_relay.go:131-202 | Each single step (use-case commit, claim, send, mark, failure note, commit, crash) keeps that invariant |
| `Outbox.CommitPublishes` | internal/adapters/outbound/postgres/outbox_relay.go:167-187 | A pass that reaches the end of its batch publishes exactly its batch when it commits |
| `Relay.OutboxRelay.Claim` | internal/adapters/outbound/postgres/outbox_relay.go:131-162 | The scan returns the first unpublished, unlocked rows in id order, up to the batch size, and leaves none of them out |
| `Outbox.ClaimExactly` | internal/adapters/outbound/postgres/outbox_relay.go:131-139 | A row is claimed exactly when it is unpublished and unlocked and fewer than the batch size of such rows have a lower id |
| `Relay.OutboxRelay.RelayOnce` | internal/adapters/outbound/postgres/outbox_relay.go:114-126 | A whole pass is a run of the step system. `published` is the first row whose send is not accepted or whose mark fails, or all; the broker has the rows before it, and that row too unless its send was refused for good; a failed mark leaves the table as it was and reports a failure; success is reported only if there was no trouble and the commit was confirmed |
| `Relay.OutboxRelay.Flush` | internal/adapters/outbound/postgres/outbox_relay.go:167-187 | The same for the flush of one claimed batch |
| `Relay.OutboxRelay.SendAll` | internal/adapters/outbound/postgres/outbox_relay.go:169-178 | The send-and-mark loop: in order, one at a time, stopping at the first failed send or mark |
| `Relay.OutboxRelay.FailRow` | internal/adapters/outbound/postgres/outbox_relay.go:192-202 | A refused send is noted on its row, if that can be written, and what was sent before it is committed |
| `Relay.OutboxRelay.LoseMark` | internal/adapters/outbound/postgres/outbox_relay.go:173-177 | A failed mark rolls the pass back although the row has been sent: the log has grown by exactly that row |
| `Relay.PassPublishesExactly` | internal/adapters/outbound/postgres/outbox_relay.go:104-114 | The table after a pass, row by row, from the replies alone: nothing changes if a mark or the commit failed; otherwise the rows before the first refused send are published with one attempt more, the refused one, if noted, is failed with one attempt more, all else stays |
| `OutboxOrder.RunKeepsOrder` | internal/adapters/outbound/postgres/outbox_relay.go:28-35 | For any number of relays whose claims skip nothing: among related rows (those of a stream, the break rows of a stream, or the rows of a path), published rows are a prefix, first deliveries come in id order, and last deliveries of published rows do too |
| `OutboxOrder.OneRelayTheorem` | internal/adapters/outbound/postgres/outbox_relay.go:28-35 | A single relay has those three properties in every run, through every crash, resend and failed commit |
| `OutboxOrder.LoneClaimUnskipped` | internal/adapters/outbound/postgres/outbox_relay.go:131-139 | A claim taken while no pass is alive skips nothing |
| `OutboxOrder.SafeClaims` | internal/adapters/outbound/postgres/outbox_relay.go:131-139 | Overlapping relays: a claim keeps every ordered continuation ordered, in all three respects, if and only if it skips no locked row that precedes one it takes |
| `OutboxOrder.OverlappingRelaysSkip` | internal/adapters/outbound/postgres/outbox_relay.go:32-35 | Two overlapping relays can take a skipping claim |
| `OutboxOrder.OverlappingRelaysReorder` | internal/adapters/outbound/postgres/outbox_relay.go:32-35 | After it, the later of two related rows can be delivered first |
| `OutboxOrder.OverlapReachable` | internal/adapters/outbound/postgres/outbox_relay.go:131-139 | The state in which that happens is reachable from the empty outbox |
| `OutboxOrder.ViewIsLast` | internal/adapters/outbound/postgres/outbox_relay.go:29-32 | A last-writer-wins reader holds, for every slot, the last message it read |
| `OutboxOrder.ReplayConverges` | internal/adapters/outbound/postgres/outbox_relay.go:28-35 | Once the outbox is drained, a last-writer-wins reader is where one clean delivery in id order would have left it, for every slot function that gives one slot to related rows only: stream and slot together, or the path alone when rows of a path are kept in order |
| `OutboxOrder.OneRelayConverges` | internal/adapters/outbound/postgres/outbox_relay.go:28-35 | That holds at the end of every drained run of one relay in which related rows become visible in id order |
| `OutboxOrder.PathOnlyReadersDiverge` | internal/adapters/outbound/postgres/outbox_relay.go:29-32 | With order per stream only it is not: a reachable run of one relay leaves such a reader with the lower-numbered row of a path that travels in two streams |
| `Encoders.OutboxPublisher.EncodeLines` | internal/adapters/outbound/kafka/publisher.go:110-156 | One message per line of each committed plan, in order, each with its own id; it fails exactly when a committed plan cannot be read back |
| `Encoders.OutboxPublisher.EncodeFacts` | internal/adapters/outbound/kafka/analytics_publisher.go:72-104 | One message per event, in order, with the fields that event puts on the wire, keyed by the aggregate it is about, each with its own id |
| `Encoders.OutboxPublisher.Publish` | internal/adapters/outbound/postgres/outbox_publisher.go:72-96 | The rows of one publish are the plan lines followed by a fact per event, with consecutive minted ids, or nothing is stored, exactly when a committed plan cannot be read back |
| `Encoders.PublishedExactly` | internal/adapters/outbound/postgres/outbox_publisher.go:72-96 | Message by message: one fact for every event and one message for every line of every plan committed, nothing else |
| `Encoders.FactForms` | internal/adapters/outbound/kafka/analytics_publisher.go:129-201 | Key and data fields of the analytics message of each of the ten events |
| `Encoders.FactsTellEventsApart` | internal/adapters/outbound/kafka/analytics_publisher.go:129-201 | Two events share a message only if they are starts of one shift that differ in certifications |
| `Encoders.LineForm` | internal/adapters/outbound/kafka/publisher.go:110-156 | The message of a plan line is keyed by building and shift and carries the line unchanged |
| `Encoders.LinesOfOne` | internal/adapters/outbound/kafka/publisher.go:110-156 | The lines sent for one event are those of the plan it commits, in order |
| `Encoders.PublishedAreKeyed` | internal/adapters/outbound/kafka/analytics_publisher.go:129-201 | Every analytics row of a publish is keyed by the aggregate its payload is about |
| `Encoders.BreaksShareStream` | internal/adapters/outbound/kafka/analytics_publisher.go:129-201 | All break events of one associate travel in one stream |
| `Encoders.PublishEnqueues` | internal/adapters/outbound/postgres/outbox_publisher.go:72-96 | Rows with new message ids under unused outbox ids may join the outbox whatever became visible meanwhile; they join in order if nothing numbered later is visible yet |
| `Projection.AppliesCommute` | internal/adapters/outbound/analyticsstore/memory_store.go:64-187 | Two events with different ids that are not break events of one associate can be applied in either order |
| `Projection.TraceEquivalence` | internal/adapters/outbound/analyticsstore/memory_store.go:64-187 | Any two orders of the same events that agree on each associate's own break events give the same rows, pending breaks, applied ids and watermark |
| `HourlyCounts.CountersAreCounts` | internal/adapters/outbound/analyticsstore/memory_store.go:64-187 | Every counter of every row is the number of events of its own kind in that hour, on their own path (assignments, reassignments, understaffing) or building-wide (all others) |
| `HourlyCounts.RowsAreCalled` | internal/adapters/outbound/analyticsstore/memory_store.go:64-187 | There is a row for a path and an hour exactly when such an event belongs there; every row starts a full hour |
| `HourlyCounts.BreaksArePairs` | internal/adapters/outbound/analyticsstore/memory_store.go:114-140 | Number and length of the ended breaks of an hour are those of the start-end pairs of the history that started in it |
| `HourlyCounts.WatermarkIsLatest` | internal/adapters/outbound/analyticsstore/memory_store.go:64-73 | The freshness watermark is the time of the latest event |
| `CommittedCounts.CountersAreCommitted` | internal/adapters/inbound/kafka/analytics_consumer.go:403-425 | End to end in numbers: in the situation of `EndToEnd.EndToEndOneRelay` each counter of a path and an hour is the number of committed rows that carry the fact of a domain event of its kind about that path in that hour; a reassignment counts for the path it leads to |
| `BreakAccounting.BreaksAreAccounted` | internal/adapters/outbound/analyticsstore/memory_store.go:114-140 | In every reachable store and hour bucket, ended breaks plus pending breaks never exceed the breaks started there |
| `BreakAccounting.Partner` | internal/adapters/outbound/analyticsstore/memory_store.go:127-140 | An end pairs with its associate's latest unconsumed start in the whole history, or with none |
| `BreakAccounting.RollupPairsHistory` | internal/adapters/outbound/analyticsstore/memory_store.go:114-140 | The incremental counters of every bucket equal the count and total length of the whole-history pairing |
| `BreakAccounting.FoldIgnoresDuplicates` | internal/adapters/outbound/analyticsstore/memory_store.go:64-73 | Duplicate deliveries change nothing: a fold equals the fold of first deliveries |
| `BreakAccounting.ReportedAverage` | internal/adapters/outbound/analyticsstore/memory_store.go:192-220 | The average reported, times the number of paired breaks, is their total length in seconds, for any deliveries with duplicates; it is 0 when there are none |
| `ReadModels.MemoryStore.FirstApply` | internal/adapters/outbound/analyticsstore/memory_store.go:64-73 | Marks an id seen and advances the watermark, once |
| `ReadModels.MemoryStore.ApplyCounter` | internal/adapters/outbound/analyticsstore/memory_store.go:91-187 | The six counting events move the store as `Apply` says |
| `ReadModels.MemoryStore.ApplyBreakStarted` | internal/adapters/outbound/analyticsstore/memory_store.go:114-123 | So does a break start |
| `ReadModels.MemoryStore.ApplyBreakEnded` | internal/adapters/outbound/analyticsstore/memory_store.go:127-140 | So does a break end, with or without a known start |
| `ReadModels.MemoryStore.Query` | internal/adapters/outbound/analyticsstore/memory_store.go:192-220 | Exactly one report row per key in the window and on the path asked for, each column showing its own counter of that key and the mean of its ended breaks |
| `ReadModels.ReportLines` | internal/adapters/outbound/analyticsstore/memory_store.go:192-220 | What a line of the report is, column by column, without the functions that build it |
| `Reports.ReportTells` | internal/adapters/outbound/analyticsstore/memory_store.go:192-220 | For any deliveries with duplicates: which lines the report has and what each column counts, in terms of the events first delivered |
| `ReadModels.PostgresProjection.UpsertRollup` | internal/adapters/outbound/analyticsstore/postgres_projection.go:188-215 | The upsert adds the delta to its row, creating it if needed |
| `ReadModels.PostgresProjection.ApplyRollup` | internal/adapters/outbound/analyticsstore/postgres_projection.go:60-71 | Claim and upsert commit together or not at all |
| `ReadModels.PostgresProjection.ApplyBreakStarted` | internal/adapters/outbound/analyticsstore/postgres_projection.go:107-129 | Claim, rollup and pending break commit together or not at all |
| `ReadModels.PostgresProjection.ApplyBreakEnded` | internal/adapters/outbound/analyticsstore/postgres_projection.go:133-170 | The same for a break end, with or without a pending start |
| `ReadModels.RetriesAreIdempotent` | internal/adapters/outbound/analyticsstore/postgres_projection.go:33-56 | However many attempts of a call land, its effect is that of one, or of none if all rolled back |
| `ReadModels.StoresStayInStep` | internal/adapters/outbound/analyticsstore/postgres_projection.go:33-215 | For every sequence of calls with duplicates and retried rollbacks, both stores hold the same rows, pending breaks and applied ids, and the same watermark |
| `ReadModels.ReportsAgree` | internal/adapters/outbound/analyticsstore/postgres_report.go:32-71 | So every query window of the two stores agrees |
| `Projector.AtMostOnceInEveryRun` | internal/adapters/inbound/kafka/analytics_consumer.go:257-333 | In every run of any number of consumers, with stops, redeliveries and rebalances anywhere, each id takes effect at most once, the store is the fold of the effects, and applied ids are marked ids |
| `Projector.CommittedMeansSettled` | internal/adapters/inbound/kafka/analytics_consumer.go:257-333 | Any number of consumers: if none stops between a recorded mark and the end of that handling and a failing mark records nothing, every projecting message below a committed offset was applied or dead-lettered or is being applied at this moment, and every undecodable one is dead-lettered |
| `Projector.CommittedExactly` | internal/adapters/inbound/kafka/analytics_consumer.go:257-333 | In every run, whatever stops and fails: a projecting message below a committed offset was applied or dead-lettered or is being applied, exactly unless some step of the run made its id vanish and it was never dead-lettered; every undecodable one was dead-lettered |
| `Projector.VanishesExactly` | internal/adapters/inbound/kafka/analytics_consumer.go:257-333 | The steps that make an id vanish (marked, neither applied nor dead-lettered, nobody in the middle of it) are exactly a mark that failed after recording and a stop of the only consumer in the middle of it, be it applying or dead-lettering |
| `ProjectorOrder.RunKeepsOrder` | internal/adapters/inbound/kafka/analytics_consumer.go:257-281 | Any number of consumers, stops and dead letters: if every fetch is safe, before an event is applied all earlier events of its partition were |
| `ApplyOrder.RunKeepsOrder` | internal/adapters/inbound/kafka/analytics_consumer.go:201-214 | Past losses too: in every run with any stops, failures and dead letters whose fetches are safe in the sense of the next row, the events of a partition that were applied were applied in log order |
| `ApplyOrder.FetchKeepsOrderExactly` | internal/adapters/inbound/kafka/analytics_consumer.go:201-214 | A fetch keeps every continuation in that order if and only if the message is marked already, or nothing at or after it in its partition has been applied and whatever consumers may still apply there carries its id |
| `ProjectorOrder.FetchIsSafeExactly` | internal/adapters/inbound/kafka/analytics_consumer.go:201-214 | A fetch keeps every continuation in order if and only if the message is marked already or everything before it in its partition is applied |
| `ProjectorOrder.UnoccupiedIsSafe` | internal/adapters/inbound/kafka/analytics_consumer.go:201-214 | With no stop in a window and no dead letters, a fetch can be unsafe only while another consumer is between the mark and the end of the handling of a message of the same partition |
| `ProjectorOrder.OverlappingConsumersReorder` | internal/adapters/inbound/kafka/analytics_consumer.go:257-281 | Two consumers and one rebalance, no stop and no dead letter: a reachable run applies two messages of a partition the other way round |
| `ProjectorOrder.BreakStaysPending` | internal/adapters/outbound/analyticsstore/memory_store.go:114-140 | If those are a break start and its end, the break stays pending, which in log order it does not |
| `Redelivery.LostForever` | internal/adapters/inbound/kafka/analytics_consumer.go:257-281 | An id marked but not applied, with nobody handling it, is never applied by any redelivery |
| `Redelivery.LostExactly` | internal/adapters/inbound/kafka/analytics_consumer.go:257-333 | In any reachable state a step loses an id (marked, not applied, nobody trying) if and only if it is a mark that failed after recording, a stop of the only consumer applying it, or the last rolled-back attempt of the only one |
| `Redelivery.CanApplyExactly` | internal/adapters/inbound/kafka/analytics_consumer.go:257-281 | Without a further delivery, an id can still take effect if and only if it has, or some consumer is trying to apply it, or it is unmarked and a message that carries it is at or after the committed offset of its partition or still before some consumer |
| `Redelivery.StopLosesExactly` | internal/adapters/inbound/kafka/analytics_consumer.go:257-281 | Stopping a consumer loses the message in its hand, if that is neither applied nor being applied by another, unless it is unmarked and a delivery of it remains that has not been committed past or that another consumer still has before it |
| `Redelivery.UnmarkedIsLost` | internal/adapters/inbound/kafka/analytics_consumer.go:257-296 | A reachable run: three failed marks, a dead letter and a commit leave an event unmarked and never to be applied |
| `Redelivery.StopLosesUnmarked` | internal/adapters/inbound/kafka/analytics_consumer.go:257-296 | A reachable run with a rebalance: the stop of a consumer loses an unmarked message that another has dead-lettered and committed past |
| `Consumer.AnalyticsConsumer.MarkProcessed` | internal/adapters/outbound/analyticsstore/consumed_events_repo.go:26-34 | Insert if absent; the answer is whether this call inserted |
| `Consumer.AnalyticsConsumer.MarkWithRetry` | internal/adapters/inbound/kafka/analytics_consumer.go:304-314 | Up to three attempts, never again after an answer; the answer follows from the gate and the replies |
| `Consumer.AnalyticsConsumer.ApplyWithRetry` | internal/adapters/inbound/kafka/analytics_consumer.go:323-333 | Up to three attempts; success exactly when one of them reports it |
| `Consumer.AnalyticsConsumer.DeadLetterAndCommit` | internal/adapters/inbound/kafka/analytics_consumer.go:286-296 | Dead-letter, then commit the offset; a write that reports a failure, whether or not it took effect, leaves the offset |
| `Consumer.AnalyticsConsumer.HandleFetchedMessage` | internal/adapters/inbound/kafka/analytics_consumer.go:257-281 | Handling one message is a run of the step system; gate, store, dead letters, offset and result afterwards follow from the message and the replies, each of which may take effect although it reports a failure: what was marked, whether an attempt took effect, whether it was dead-lettered, whether the offset moved, and success exactly when commit and dead-letter write reported it |
| `Handling.FactIsCounted` | internal/adapters/inbound/kafka/analytics_consumer.go:403-425 | Handling the fact of a new domain event without trouble adds one to the counter of its own kind, on its own path (the new path of a reassignment) and in its own hour, or starts or closes a break; nothing else changes, and nothing is dead-lettered |
| `Handling.FactEnds` | internal/adapters/inbound/kafka/analytics_consumer.go:257-333 | All other endings: a known fact is skipped, one the gate does not answer for is dead-lettered, a new one is dead-lettered when no attempt to apply it reports success, though it may have counted |
| `Handling.PlansAreIgnored` | internal/adapters/inbound/kafka/analytics_consumer.go:257-281 | Plan lines, proposals and commitments leave gate, store and dead letters alone |
| `Handling.MalformedIsDead` | internal/adapters/inbound/kafka/analytics_consumer.go:257-281 | An undecodable message is dead-lettered and changes nothing else |
| `Handling.ThreeMarks` | internal/adapters/inbound/kafka/analytics_consumer.go:304-314 | The gate answers with the first of three attempts that gets an answer; the id is new if it was not known and no earlier attempt recorded it |
| `Handling.ThreeApplies` | internal/adapters/inbound/kafka/analytics_consumer.go:323-333 | An event takes effect when one of three attempts commits, and fails when none of the three reports success |
| `EndToEnd.EndToEndTheorem` | internal/adapters/inbound/kafka/analytics_consumer.go:257-281 | Outbox, any number of relays, broker and any number of consumers together: in every run whose claims skip no break row, whose fetches are safe, with no stop inside a window and nothing dead-lettered, once the consumers have caught up the read model is the fold of the delivered projecting rows, each once, in outbox order; only break rows have to become visible in id order |
| `EndToEnd.EndToEndOneRelay` | internal/adapters/outbound/postgres/outbox_relay.go:114-202 | With one relay, a drained outbox and partitions handed over only when nobody is in the middle of one of their messages, it is the fold of every committed projecting event, each exactly once, in outbox order |
| `EndToEnd.StoreIsFold` | internal/adapters/outbound/analyticsstore/memory_store.go:64-187 | At any moment of such a run, the read model is the fold, in outbox order, of the rows applied so far |
| `EndToEnd.StreamOrderSuffices` | internal/adapters/outbound/kafka/analytics_publisher.go:129-201 | Applying rows in any order that respects the break rows of each stream gives the same read model as outbox order |
| `EndToEnd.DrainedDeliversAll` | internal/adapters/outbound/postgres/outbox_relay.go:114-202 | Once every row is published, the rows delivered are all the committed ones |
| `Associates.AssociateShift.constructor` | internal/domain/associate/associate_shift.go:52-64 | A new shift has its certifications, no hours, version 1 and one started event |
| `Associates.AssociateShift.Certify` | internal/domain/associate/associate_shift.go:130-137 | Refused after the end; otherwise adds the certification and records the event |
| `Associates.AssociateShift.StartBreak` | internal/domain/associate/associate_shift.go:141-151 | Refused after the end or on a break; otherwise on break, with the event |
| `Associates.AssociateShift.EndBreak` | internal/domain/associate/associate_shift.go:155-165 | Refused after the end or off break; otherwise off break, with the event |
| `Associates.AssociateShift.LogHours` | internal/domain/associate/associate_shift.go:181-190 | Refused after the end or past the maximum; otherwise adds the hours |
| `Associates.AssociateShift.EndShift` | internal/domain/associate/associate_shift.go:194-200 | Ends the shift; a second end records nothing |
| `Associates.LogHoursRule` | internal/domain/associate/associate_shift.go:181-190 | Hours are refused after the end and past the maximum, and add up otherwise |
| `Assignments.LaborAssignment.Assign` | internal/domain/assignment/labor_assignment.go:106-120 | Refused without the certification; otherwise closes what was active, opens the new interval and records which of the two it was |
| `Assignments.LaborAssignment.EndActive` | internal/domain/assignment/labor_assignment.go:124-131 | Closes the active interval and returns it as it was |
| `Assignments.LaborAssignment.CloseActive` | internal/domain/assignment/labor_assignment.go:133-141 | Appends the closed interval to the history |
| `Concurrency.HoursConserved` | internal/domain/associate/associate_shift.go:181-190 | Under every interleaving of start, certify, break, assign and end with stale and torn loads, stored hours equal the time in the intervals closed since the shift was last started and stay within the maximum |
| `Concurrency.StaleLoadNeverPersisted` | internal/adapters/outbound/postgres/assignment_repo.go:34-135 | A successful save of loaded aggregates replaces exactly the stored row and history they were loaded at, though row and history are read apart; history gains at most one interval and keeps the rest |
| `Concurrency.SavedIsCurrent` | internal/adapters/outbound/postgres/assignment_repo.go:34-85 | The version guards make what a successful call saw of a saved aggregate current |
| `Concurrency.LostUpdates` | internal/application/usecases/assign_labor.go:63-88 | Exactly which successful calls lose an interval (a fresh assignment saved over a row, both at version 1) or leave an ended shift with an active assignment (an assignment lands after the end, or an end had not seen the active assignment) |
| `Concurrency.MissesExactly` | internal/application/usecases/assign_labor.go:63-88 | A successful call has the effect it would have had on what is stored when it commits, if and only if it is not one of these: an assignment that closes nothing, onto a shift that has ended, is on break or lacks the certification, or over a first assignment it had not seen; or an end that closes nothing while an assignment is active |
| `Concurrency.FreshSaves` | internal/adapters/outbound/postgres/assignment_repo.go:50-66 | A save of a fresh aggregate goes through exactly over nothing or over a row still at version 1 |
| `Concurrency.SecondCreatorWins` | internal/domain/assignment/labor_assignment.go:54-56 | A reachable run in which two first assignments overlap and the first is wiped out |
| `Concurrency.AssignMissesEnd` | internal/application/usecases/assign_labor.go:69-84 | A reachable run in which an assignment commits after the end of its shift |
| `Concurrency.AssignMissesShift` | internal/application/usecases/assign_labor.go:69-84 | Reachable runs in which a first assignment lands on a shift that went on break, or was restarted without the certification, meanwhile; the same call on what is stored is refused |
| `Concurrency.EndMissesAssignment` | internal/application/usecases/end_associate_shift.go:33-58 | A reachable run in which a shift ends without closing an assignment that committed meanwhile |
| `Concurrency.RunKeepsInv` | internal/application/usecases/assign_labor.go:41-93 | The invariant behind those results holds in every reachable state |
| `SerialRuns.AloneIsSerial` | internal/application/usecases/assign_labor.go:41-93 | An uninterrupted call of the concurrent system has the effect of a serial call |
| `SerialRuns.SerialNeverConflicts` | internal/adapters/outbound/postgres/assignment_repo.go:50-66 | A serial call is never refused for a version |
| `SerialRuns.DomainEventsAreAJournal` | internal/domain/assignment/labor_assignment.go:106-141 | After every serial run, reading back the domain events handed to the publisher rebuilds certifications, break flag, hours, ended flag, the active path and every closed interval with exact times |
| `WireJournal.CommittedRowsJournal` | internal/adapters/outbound/kafka/analytics_publisher.go:129-201 | The committed rows rebuild all of that but the certifications, and those exactly when each one given at the last start was also certified since |
| `WireJournal.BodiesTellTheRest` | internal/adapters/outbound/kafka/analytics_publisher.go:129-201 | For any list of events, what the rows miss is precisely the certifications given at the last start |
| `WireJournal.SameRowsDifferentShifts` | internal/adapters/outbound/kafka/analytics_publisher.go:129-201 | Two runs commit the same rows and leave different certifications |
| `OutboxJournal.OutboxIsTheJournal` | internal/adapters/outbound/postgres/outbox_publisher.go:72-96 | The outbox table itself, read in id order after every serial run of calls with any number of relays at work, rebuilds the same, with the same exact condition |
| `OutboxJournal.JournalGrows` | internal/adapters/outbound/postgres/outbox_publisher.go:72-96 | In every run of publishes and relay steps the table in id order grows by exactly the facts of the published events |
| `SerialRuns.EndedMeansInactive` | internal/application/usecases/end_associate_shift.go:25-59 | After every serial run, an ended shift has no active assignment |
| `SerialRuns.IntervalsAreOrdered` | internal/domain/assignment/labor_assignment.go:106-141 | Under a clock that does not run backwards, closed intervals are ordered and disjoint and end no later than the active one starts |
| `Repositories.HeadcountsAddUp` | internal/adapters/outbound/memory/assignment_repo.go:42-54 | Active counts summed over any list naming every path in use once equal the number of associates with an active assignment |
| `Repositories.AssignmentRepo.CountActiveByPath` | internal/adapters/outbound/memory/assignment_repo.go:42-54 | The count is the number of associates active on the path |
| `Repositories.AssignmentRepo.Save` | internal/adapters/outbound/postgres/assignment_repo.go:34-85 | Guarded upsert and rewritten history, together or not at all when run on its own |
| `Repositories.AssignmentRepo.FindByAssociateID` | internal/adapters/outbound/postgres/assignment_repo.go:88-135 | Row and version are read first and the history by a second query, at a possibly later moment: the result is the row of the first with the intervals, in order, of the second; not found exactly without a row |
| `Repositories.AssociateRepo.Save` | internal/adapters/outbound/postgres/associate_repo.go:31-54 | Insert at version 1, or update under the loaded version; a conflict changes nothing |
| `Repositories.AssociateRepo.FindByID` | internal/adapters/outbound/postgres/associate_repo.go:57-76 | Loads the stored shift and its version; not found exactly without a row |
| `Repositories.Database.BeginOrJoin` | internal/adapters/outbound/postgres/unit_of_work.go:55-67 | Opens a transaction or joins the open one |
| `Repositories.Database.Commit` | internal/adapters/outbound/postgres/unit_of_work.go:84-112 | Only whoever opened the transaction makes it durable |
| `Repositories.Database.Rollback` | internal/adapters/outbound/postgres/unit_of_work.go:84-112 | Only whoever opened the transaction drops it |
| `Services.Workforce.SaveAndPublish` | internal/application/usecases/breaks.go:28-33 | Save and publish commit together or not at all |
| `Services.Workforce.StartAssociateShift` | internal/application/usecases/start_associate_shift.go:31-55 | The request has exactly the effect of a serial call, or none |
| `Services.Workforce.CertifyAssociate` | internal/application/usecases/certify_associate.go:20-34 | The request has exactly the effect of a serial call, or none |
| `Services.Workforce.StartBreakOf` | internal/application/usecases/breaks.go:20-34 | The request has exactly the effect of a serial call, or none |
| `Services.Workforce.EndBreakOf` | internal/application/usecases/breaks.go:46-60 | The request has exactly the effect of a serial call, or none |
| `Services.Workforce.AssignLabor` | internal/application/usecases/assign_labor.go:41-93 | The request has exactly the effect of a serial call, or none, with the same refusal |
| `Services.Workforce.EndAssociateShift` | internal/application/usecases/end_associate_shift.go:25-59 | The request has exactly the effect of a serial call, or none, with the same refusal |
| `CallRules.EndRule` | internal/application/usecases/end_associate_shift.go:25-59 | Ending succeeds if and only if nothing is active or the hours with the active interval stay within the maximum; the rows and the event it leaves, field by field, or the exact error |
| `CallRules.AssignRule` | internal/application/usecases/assign_labor.go:41-93 | Assigning succeeds if and only if the shift has not ended, is not on break, has the certification, and what is active stays within the maximum; rows, history and event field by field, or the exact error |
| `CallRules.StartBreakRule` | internal/application/usecases/breaks.go:20-34 | When a break starts, what it leaves, and the exact error otherwise |
| `CallRules.EndBreakRule` | internal/application/usecases/breaks.go:46-60 | When a break ends, what it leaves, and the exact error otherwise |
| `CallRules.CertifyRule` | internal/application/usecases/certify_associate.go:20-34 | When a certification is added, what it leaves, and the exact error otherwise |
| `CallRules.StartRule` | internal/application/usecases/start_associate_shift.go:31-55 | A start always succeeds, over whatever is stored |
| `CallRules.NotFoundRule` | internal/application/usecases/assign_labor.go:41-45 | Every other call without a shift is not found |
| `CallRules.ShiftSaveRule` | internal/adapters/outbound/postgres/associate_repo.go:31-54 | Insert at version 1, replace the loaded version by the next one, or conflict |
| `CallRules.AssignmentSaveRule` | internal/adapters/outbound/postgres/assignment_repo.go:34-85 | The same with the whole history; an open interval in it is refused |
| `Readiness.ReadinessExactly` | internal/adapters/outbound/kafkacatalog/consumer.go:331-351 | For every interleaving of partitions read in offset order, ready means exactly that everything present at startup was handled, if and only if no partition ends in a gap below its startup watermark |
| `Readiness.ReadyMeansHandled` | internal/adapters/outbound/kafkacatalog/consumer.go:331-351 | Ready is never early, whatever the gaps |
| `Readiness.HandledMeansReady` | internal/adapters/outbound/kafkacatalog/consumer.go:331-351 | Without trailing gaps it is not late: no further message is needed |
| `Readiness.GapMeansLate` | internal/adapters/outbound/kafkacatalog/consumer.go:200-237 | With a trailing gap, a consumer that handled everything is still not ready |
| `Readiness.ReadyIsFinal` | internal/adapters/outbound/kafkacatalog/consumer.go:269-277 | Readiness never goes back and the channel is closed once |
| `Readiness.EmptyIsReady` | internal/adapters/outbound/kafkacatalog/consumer.go:200-237 | A consumer is ready from the start exactly when every partition is empty |
| `Readiness.ReadinessGate.constructor` | internal/adapters/outbound/kafkacatalog/consumer.go:141-146 | A topic with nothing to wait for is ready at once |
| `Readiness.ReadinessGate.Check` | internal/adapters/outbound/laborperformancecache/consumer.go:481-501 | The gate moves as `CheckReady` says |
| `Readiness.ReadinessGate.Mark` | internal/adapters/outbound/laborperformancecache/consumer.go:369-377 | Marking ready twice closes the channel once |
| `CatalogueCache.LastEventWins` | internal/adapters/outbound/kafkacatalog/consumer.go:383-398 | The cache holds, for every path, what the last event about it says |
| `CatalogueCache.CachedExactly` | internal/adapters/outbound/kafkacatalog/consumer.go:383-398 | Event by event: a definition is cached exactly when some event upserts it and no later one touches its path |
| `CatalogueCache.InterleavingDoesNotMatter` | internal/adapters/outbound/kafkacatalog/consumer.go:356-398 | Every interleaving that keeps per-path order gives the same cache |
| `CatalogueCache.ReplayChangesNothing` | internal/adapters/outbound/kafkacatalog/consumer.go:356-398 | Reading again any suffix per path of what was read changes nothing |
| `CatalogueCache.RewindChangesNothing` | internal/adapters/outbound/kafkacatalog/consumer.go:356-398 | Nor does rewinding to any earlier position |
| `CatalogueCache.FileAndCacheAgree` | internal/adapters/outbound/kafkacatalog/consumer.go:284-292 | A file-fed catalogue and the cache give the same answer to every lookup once the last word on each path is what the file declares |
| `CatalogueCache.CatalogueConsumer.Run` | internal/adapters/outbound/kafkacatalog/consumer.go:311-329 | After the loop the cache and the gate are what was read makes them |
| `CatalogueCache.CatalogueConsumer.LookupPath` | internal/adapters/outbound/kafkacatalog/consumer.go:284-292 | The answer is that of some listing of the cache, and of every listing when no prefix is shared |
| `PathCatalog.Lookup` | internal/domain/pathcatalog/path_definition.go:72-94 | The loop returns the first of the longest matches |
| `PathCatalog.LookupIsMostSpecific` | internal/domain/pathcatalog/path_definition.go:66-94 | The result matches, no match is longer, earlier matches are shorter; there is none exactly when nothing matches |
| `PathCatalog.MatchesExactly` | internal/domain/pathcatalog/path_definition.go:100-105 | A prefix matches an id exactly when the id begins with it, whatever the case, and ends there or goes on with a dash |
| `PathCatalog.MatchesFormAChain` | internal/domain/pathcatalog/path_definition.go:100-105 | Of two prefixes that match one id, the shorter begins the longer |
| `PathCatalog.OrderFreeExactly` | internal/domain/pathcatalog/path_definition.go:72-94 | Lookups are independent of declaration order exactly when no prefix is declared for two different definitions |
| `PathCatalog.CaseDoesNotMatter` | internal/domain/pathcatalog/path_definition.go:66-73 | Ids that differ only in case get the same answer |
| `LaborCache.OnlyTheSetMatters` | internal/adapters/outbound/laborperformancecache/consumer.go:507-581 | The cache depends only on the set of distinct events: not on order, partition, repetition or skipped messages |
| `LaborCache.CacheRepresents` | internal/adapters/outbound/laborperformancecache/consumer.go:562-581 | Its totals are the sums and counts over that set, per task type |
| `LaborCache.KeyCollisions` | internal/adapters/outbound/laborperformancecache/consumer.go:537-549 | Two sources can share a de-duplication key exactly when one continues the other past the separator |
| `LaborCache.KeyIsThePair` | internal/adapters/outbound/laborperformancecache/consumer.go:537-549 | Without the separator in a source, the key identifies the pair |
| `LaborCache.SharedKeyDropsAnEvent` | internal/adapters/outbound/laborperformancecache/consumer.go:537-549 | With it, two different events would be counted as one; decoding a URI reference lets no such source through, so this says what the key relies on |
| `LaborCache.ShareIsAFraction` | internal/adapters/outbound/laborperformancecache/consumer.go:189-198 | With non-negative seconds a reported idle share lies between 0 and 1 |
| `LaborCache.LaborConsumer.MarkSeen` | internal/adapters/outbound/laborperformancecache/consumer.go:537-549 | Records the key and tells whether it was new |
| `LaborCache.LaborConsumer.ApplyTask` | internal/adapters/outbound/laborperformancecache/consumer.go:562-581 | Adds one task to the totals of its type; unobserved idle time is not counted as zero |
| `LaborCache.LaborConsumer.Run` | internal/adapters/outbound/laborperformancecache/consumer.go:461-479 | After the loop the totals and the gate are what was read makes them |
| `LaborCache.LaborConsumer.MeanActualSeconds` | internal/adapters/outbound/laborperformancecache/consumer.go:409-426 | The mean of the path's task type, or unavailable |
| `LaborCache.LaborConsumer.IdleSharePct` | internal/adapters/outbound/laborperformancecache/consumer.go:437-454 | The share of the path's task type, or unavailable |
| `LaborCache.MeanExactly` | internal/adapters/outbound/laborperformancecache/consumer.go:409-426 | The mean of a task type, times the number of its distinct tasks, is the sum of their seconds; there is none without a task |
| `LaborCache.ShareExactly` | internal/adapters/outbound/laborperformancecache/consumer.go:437-454 | The share, times all seconds, is the idle seconds over the distinct tasks; there is none without an observation or without time |
| `LaborCache.MeasuredPaths` | internal/adapters/outbound/laborperformancecache/consumer.go:409-426 | Answers are for pick, pack and slam, whatever the case, and for nothing else |
| `PathPlanning.ProposedIsLeastCover` | internal/domain/shiftplan/shift_plan.go:61-66 | Proposed heads are the fewest that cover the charge at the rate |
| `PathPlanning.TrimCoversBusyTime` | internal/application/usecases/propose_path_plan.go:125-162 | A trimmed proposal stays between 1 and the untrimmed heads, covers heads times (1 - share), and is the least positive number that does |
| `PathPlanning.TrimIsMonotone` | internal/application/usecases/propose_path_plan.go:125-162 | It never rises as the share rises |
| `PathPlanning.TrimStartsAbove` | internal/application/usecases/propose_path_plan.go:125-162 | A trim takes effect exactly above the threshold, 0.3 unless one above 0 is configured, and when fewer heads do |
| `PathPlanning.RateRule` | internal/application/usecases/propose_path_plan.go:80-99 | Which rate is used, and when a failing client fails the request |
| `PathPlanning.NoRateNoHeads` | internal/domain/shiftplan/shift_plan.go:61-66 | A rate that is not positive proposes no heads |
| `PathPlanning.ProposePathPlan.Execute` | internal/application/usecases/propose_path_plan.go:80-116 | What is returned is what is published, or an error publishes nothing; the rate is said to be measured exactly when it is; heads come with a reason naming share, threshold and both numbers exactly when they were trimmed; exactly which replies fail it |
| `PathPlanning.ProposePathPlan.ApplyIdleShareTrim` | internal/application/usecases/propose_path_plan.go:125-162 | No client, no data or no heads leave the proposal; an error fails it; a reason is given exactly when fewer heads are left |
| `ShiftPlanning.CommitShiftPlan.Execute` | internal/application/usecases/commit_shift_plan.go:61-96 | An accepted plan is within one set of capability counts, each asked at most once, the caller's stations and the hours of its heads, even if the registry changes meanwhile; it is refused for a rule exactly when it is not; any failure stores and publishes nothing |
| `ShiftPlanning.CommitShiftPlan.Resolve` | internal/application/usecases/commit_shift_plan.go:66-78 | Each path is looked up and each capability counted at most once |
| `ShiftPlanning.CommitShiftPlan.CapacityFor` | internal/application/usecases/commit_shift_plan.go:114-136 | The ceiling of a path under the memo, which it only extends |
| `ShiftPlanning.CeilingIsTheMinimum` | internal/application/usecases/commit_shift_plan.go:120-135 | The ceiling is the least count over the required capabilities, 0 if there are none |
| `ShiftPlanning.CommitShiftPlan.InsertLines` | internal/adapters/outbound/postgres/shift_plan_repo.go:45-53 | A second line for a path fails the save |
| `ShiftPlanning.CommitPlan` | internal/domain/shiftplan/shift_plan.go:77-107 | The first line that breaks a rule decides; no line, no plan |
| `ShiftPlanning.LineRules` | internal/domain/shiftplan/shift_plan.go:77-107 | Exactly when each rule is the one a line is refused for |
| `ShiftPlanning.PlannedHeadsFor` | internal/domain/shiftplan/shift_plan.go:130-137 | The heads of the first line for the path, or 0 |

## Left out

- HTTP and MCP adapters, DTOs, error-to-status mapping, logging, telemetry, the web front end: presentation.
- SQL, pgx, kafka-go, the CloudEvents SDK and JSON themselves: tables are maps changed atomically, row locks are batches held by
  live passes, the broker is one append-only log, decoding yields an event or fails.
- Broker offsets: the projector uses a message's position in the broker log, which orders every partition as offsets do.
- The assumption that related rows become visible in id order, which the id sequence alone does not enforce for transactions
  that overlap; it is a named premise (`VisibleInOrder`) of the ordering results, for break rows only in `EndToEnd`. For break
  rows of one associate the lock on the shift row, taken before the ids are drawn, enforces it; the lock is not modelled.
- The consumer-group protocol: a partition is given to a consumer at any moment (`Assign`) and never formally taken away, so that
  several may read it at once; heartbeats, generations and commits fenced off after a rebalance only remove runs. Offsets may go
  back, as they do when a former owner commits late.
- Late delivery: a send reported as failed either reaches the broker before the reply or never. One that arrived after later
  sends of its stream would break the order of last deliveries, in the code as well.
- The assumption that every minted message id is new; it is the premise `FreshIds` of an outbox commit.
- Ordering across overlapping relays or consumers beyond the exact conditions above, and exactly-once across a stop
  between mark and apply: the code does not provide them.
- Liveness: the relay's sleep loop (outbox_relay.go:83-98), back-off delays and timeouts; results about drained outboxes and
  projectors that have caught up take that as a premise.
- Float rounding, 64-bit overflow, the microsecond precision of stored timestamps, and Unicode case folding (ASCII only).
- That a shift can always be ended: an interval longer than the remaining hours makes ending it fail for good, as in the code.
- The wiring of cmd/mcp/main.go:177, where assigning labor has no unit of work.
- The order in which a stored plan's lines are read back: the query has none, so lines of one plan are a sequence given as read.
- GetStaffingGap, FreshnessLag, PullEvents hand-over between requests, path id and certification validation, a missing
  catalogue in the shift-plan commit: single-branch members.
- Circuit breakers, bootstrap, pool sizing, migrations and shutdown order: configuration.
- Concurrency: a commit is one atomic step; the row locks taken inside a transaction and the deadlocks they may cause appear only
  as a call that changes nothing (`Drop`).
- Outbox: a failure note that cannot be written may still be followed by a successful commit in the model; PostgreSQL would
  refuse that commit, which is one of the modelled outcomes.
- CatalogueCache.CatalogueConsumer.LookupPath: with two cached paths sharing a prefix it promises only the answer of some listing,
  because map iteration order is arbitrary.
- ShiftPlanning.CommitShiftPlan.Execute: catalogue lookups are answered by an oracle that may change between questions; that the
  answers are most-specific matches is stated separately in PathCatalog.
