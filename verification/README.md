# Delivery, maintenance, SDK queue, deletion and membership: a verified model

This project models, in Dafny, the parts of the analytics platform whose correctness does not show in any
single function, and proves what they promise over every input, every interleaving and every run.

* **Delivery** (`World`, `Delivery`, `DeliverySafety`, `DeliveryLaws`, `FinalizationHistory`, `Frontier`,
  `FrontierProgress`, `StreamIds`): one project's Redis stream with its consumer group, the ClickHouse rows, the
  dead-letter stream, and the PostgreSQL watermark and marker rows. Any number of writer processes take atomic steps
  against these stores beside producers, foreign consumers, and outsiders who acknowledge or delete delivered entries.
  A process may stop between any two steps. Every call may fail without effect, or take effect and lose its reply.
* **Boundary markers** (`Markers`, `MarkerRuns`): the row of one boundary, its guarded updates, and publishers
  with stale snapshots.
* **The writer's memory** (`Isolation`, `WriterBuffer`, `InsertGuard`): recursive isolation of bad rows, the
  buffer as a class with the source's methods, and the one outstanding INSERT with its drain and stop.
* **Maintenance** (`MigrationPlan`, `PostgresMigrations`, `Maintenance`, `MaintenanceSafety`, `MaintenanceProgress`):
  ledger checks, concurrent PostgreSQL runners, and ClickHouse runs interleaved with runtime INSERT queries through
  the gate.
* **The SDK** (`Batches`, `EventQueue`, `Transport`, `Shutdown`): bisection, the queue and the HTTP client as
  classes, and the threads that enqueue, flush and stop.
* **Deletion** (`Purge`, `PurgeResumption`): the multi-table purge, interrupted and retried, and deletions that
  go on in the server after their client died.
* **Console authority** (`Membership`, `MembershipSafety`, `MembershipLaws`, `MembershipConsole`, `RateBuckets`):
  membership transactions over all projects of a site, their audit, and the attempt buckets.

`Trials` holds what isolation and bisection share: records of what was tried on which positions of a batch, and
what was answered.

How the parts fit. Pure decisions are functions (`FrontierUpdate`, `Isolate`, `Plan`, `Deliver`, `Keep`,
`Counted`, the membership transactions). Code that the source runs step by step on its own fields is a class or
a method with loops, proved equal to those functions. Protocols with several parties are state machines whose
runs are arbitrary sequences of enabled steps; their theorems quantify over the initial state and the run. Safety
alone would let a protocol do nothing, so each has a partner that shows what it can reach (`FrontierCanAdvance`,
`MaintenanceCanComplete`, `RunnerFinishes`, `ShutdownCanComplete`, `InsertCanGoThrough`), and what a process remembers
is compared with histories kept beside it: what was acknowledged, sent, answered, stored, rejected or admitted.

The heart of the frontier proof is counting. `entries-read` grows by one per delivery whoever reads, so when its
increase equals the number of identifiers one process finalized and the group's head is the largest of them,
those identifiers are *all* the deliveries beyond the old frontier (`AdvanceSkipsNothing`). Everything a process
remembers is then shown to survive whatever the rest of the system does (`Grows`, `WriterPersists`).

Four promises hold only in part, and are stated as exact conditions:

* **Deletion.** Whatever the crashes, the purge ends at its goal if and only if, before it starts, every targeted
  row of the alias table belongs to the requested user, or the whole project is deleted
  (`ConvergesExactlyWhenOwnAssertionsOnly`). Otherwise a deletion of the alias table that stops after the requested
  user's own assertions strands another user's assertion of the same anonymous identity, and the retry completes
  without it (`PartialAliasDeletionCanLeaveARow`). That run needs a ClickHouse mutation abandoned part-way: crashes
  between tables are always harmless (`AtomicRunsReachGoal`), and so is a mutation that goes on after its client
  died, once it has ended (`ResumedDeletionsReachGoal`).
* **Shutdown.** A batch taken after `stop` cancelled retries costs exactly one HTTP request
  (`CancelledBatchCostsOneRequest`). Intake is fenced, bisection is stopped and retries are cancelled one after
  another, so a batch taken in between can cost more (`FencedBatchCanCostMore`); it is certain to cost one exactly
  when nothing is left to retry or to bisect (`CostsOneExactlyWhenNothingLeft`).
* **Role replacement.** Nobody hands on a role they do not hold (`NewRolesWereHeld`), and a removal takes only roles
  the actor holds (`LostRolesWereTaken`). A replacement checks the roles it gives and not those it takes, so a manager
  can take away a role that the manager lacks (`ReplacementCanTakeUnheldRoles`); it takes only held roles exactly when
  the member's roles were within the actor's (`ReplacementTakesHeldExactlyWhenWithin`).
* **Rate buckets.** The bound of twice the limit is reached when both ends of the interval count
  (`TwiceTheLimitIsReached`), so it cannot be improved for closed intervals.

## Model

| member | source | states |
|---|---|---|
| `DeliverySafety.HealthyFrontierIsSound` | pipeline/redis/clickhouse_writer.py:2750-2900 | In every reachable state with a healthy watermark, every entry ever admitted up to the contiguous identifier was delivered, is neither pending nor in the stream, and is a ClickHouse row with its own payload or a marker published under its own identifier |
| `DeliverySafety.NothingIsLost` | pipeline/redis/clickhouse_writer.py:2902-3014 | In every reachable state every admitted entry is unread or pending in the stream, stored, dead-lettered, a marker whose row is terminal for that identifier, or was removed by an outsider; buffers stay within their size |
| `DeliverySafety.TrimCrossesNothing` | pipeline/redis/clickhouse_writer.py:2240-2318 | A trim whose bound came from earlier, separate reads keeps every unread and every pending entry, whatever happened in between |
| `DeliverySafety.PendingEntryStaysInStream` | pipeline/redis/clickhouse_writer.py:2619-2690 | In every reachable state, the entry recorded for a pending boundary is still in the stream and is that boundary's marker, unless outsiders removed it |
| `DeliverySafety.RecordedIdentityNeverChanges` | pipeline/redis/clickhouse_writer.py:548-614 | Over every run, the identifier recorded for a token never changes |
| `DeliverySafety.PendingMarkerStaysAvailable` | pipeline/redis/clickhouse_writer.py:548-614 | A script run for a pending boundary whose entry is recorded and not removed by outsiders answers with exactly that identifier, never with invalid deduplication, and adds nothing |
| `DeliverySafety.AdvanceSkipsNothing` | pipeline/redis/clickhouse_writer.py:2842-2861 | Delivery count and head that account for exactly the finalized identifiers make them equal to all deliveries between the old frontier and the head |
| `DeliverySafety.FrontierUpdateIsSound` | pipeline/redis/clickhouse_writer.py:2812-2898 | Whatever a process finalized and whenever it looked at the group, the transaction never writes a healthy mark that is untrue and never revives a degraded one |
| `DeliverySafety.StartActionKeeps` | pipeline/redis/clickhouse_writer.py:1089-1214 | Comparing with, or creating, the watermark at start from stale observations keeps the whole invariant: the first mark is healthy only for a group that read nothing from an intact stream |
| `DeliverySafety.AuthorityIsEnough` | pipeline/redis/clickhouse_writer.py:2619-2690 | Authority read from PostgreSQL makes every queued delivery accounted for, and acknowledgeable under a healthy watermark unless one of them is quarantined |
| `DeliverySafety.AuthorizedIsAccounted` | pipeline/redis/clickhouse_writer.py:2619-2690 | A marker delivery that passes verification is published or quarantined for its own token and identifier |
| `DeliverySafety.TakeKeepsWorld` | pipeline/redis/clickhouse_writer.py:2374-2454 | Reading, claiming, losing, parsing, rejecting and flushing keep the stores' invariant and change the stores only in ways every other process's knowledge survives |
| `DeliverySafety.TakeKeepsQueue` | pipeline/redis/clickhouse_writer.py:2498-2556 | A delivery is queued for acknowledgement only when stored, a marker, or dead-lettered after the degrade write committed |
| `DeliverySafety.FinalizeKeepsFinalizer` | pipeline/redis/clickhouse_writer.py:2902-2956 | Through verification, XACK+XDEL with known, lost or no effect, and the group observation, what the process believes finalized is really gone from the stream and clean or under a degraded watermark |
| `DeliverySafety.PublishKeepsPublisher` | pipeline/redis/clickhouse_writer.py:1650-1850 | Every identity a publisher carries from a script reply is the one recorded for its token in the deduplication table |
| `DeliverySafety.WriterPersists` | pipeline/redis/clickhouse_writer.py:2902-2956 | Everything one process relies on survives any step of the rest of the system |
| `DeliverySafety.StepKeeps` | pipeline/redis/clickhouse_writer.py:2374-3014 | Every step of every party keeps the global invariant and only grows the stores |
| `Frontier.AdvanceFrontier` | pipeline/redis/clickhouse_writer.py:2812-2898 | The loop over finalized identifiers with its maximum and guards computes the set-based decision |
| `Frontier.HealthyExactlyWhenNothingSkipped` | pipeline/redis/clickhouse_writer.py:2842-2867 | A true healthy mark stays healthy if and only if the head did not move back and exactly the deliveries between frontier and head were finalized; it then moves to the head |
| `Frontier.ExecuteAcceptsExactBatch` | pipeline/redis/clickhouse_writer.py:2925-2956 | The whole state after XACK+XDEL: if and only if the reply is known and all identifiers were pending and present, or none was after an uncertain attempt, the batch joins everything finalized before; without a reply the attempt is uncertain; a known reply that does not fit changes nothing remembered |
| `Frontier.QueueStaysDistinct` | pipeline/redis/clickhouse_writer.py:2609-2617 | The acknowledgement queue never holds an identifier twice |
| `FrontierProgress.FrontierCanAdvance` | pipeline/redis/clickhouse_writer.py:2842-2898 | For every list of events and markers, each read or claimed, and every way to cut it into batches, some run from a fresh stream stores or publishes them all, finalizes batch after batch while later ones are pending, and ends with an empty stream and a healthy watermark at the last identifier |
| `FrontierProgress.IllFormedCanBeRemoved` | pipeline/redis/clickhouse_writer.py:2498-2556 | For every identifier some run dead-letters an ill-formed entry and removes it, with the watermark degraded where it stood |
| `FrontierProgress.QuarantinedCanBeRemoved` | pipeline/redis/clickhouse_writer.py:2619-2690 | A delivery of a quarantined marker can be removed, after the watermark was degraded where it stands |
| `FinalizationHistory.FinalizedIsAcknowledged` | pipeline/redis/clickhouse_writer.py:2760-2763 | In every reachable state, what a process believes finalized is exactly what accepted XACK+XDEL replies acknowledged since its last committed frontier; its attempt counts as uncertain exactly when one may have been applied since its last completed finalization; and its queue holds nothing twice |
| `DeliveryLaws.WatermarkNeverMovesBack` | pipeline/redis/clickhouse_writer.py:2870-2898 | Over every run from any state a watermark never moves back, and once degraded it never changes |
| `DeliveryLaws.StepMovesMark` | pipeline/redis/clickhouse_writer.py:2812-2898 | Every step of every party moves the watermark forward, leaves it, or degrades it where it stands |
| `DeliveryLaws.RestartDegradesExactlyWhenAhead` | pipeline/redis/clickhouse_writer.py:1089-1160 | A restart that observes the group as it is leaves a healthy mark alone if and only if nothing was delivered beyond it, and otherwise degrades it in place |
| `DeliveryLaws.RestartTrustsOnlyExactMatch` | pipeline/redis/clickhouse_writer.py:1089-1160 | Whatever was observed, a healthy mark survives the comparison if and only if head and count are both its own |
| `DeliveryLaws.FirstMarkIsHealthyExactlyWhenIntact` | pipeline/redis/clickhouse_writer.py:1160-1214 | The first watermark starts at 0-0 and is healthy if and only if the group had read nothing and the stream had lost nothing |
| `DeliveryLaws.AuthorityIsExact` | pipeline/redis/clickhouse_writer.py:2619-2690 | A marker passes verification if and only if its own row is published under it or quarantined with it |
| `DeliveryLaws.DegradesExactlyForQuarantine` | pipeline/redis/clickhouse_writer.py:2619-2690 | A batch is degraded before it is acknowledged if and only if it holds a quarantined marker |
| `DeliveryLaws.IdleTrimRemovesExactlyHistory` | pipeline/redis/clickhouse_writer.py:2240-2318 | With nothing pending, an undisturbed trim removes exactly what was handed out |
| `DeliveryLaws.BusyTrimRemovesExactlyBefore` | pipeline/redis/clickhouse_writer.py:2240-2318 | With deliveries pending, an undisturbed trim removes exactly what lies before the first of them |
| `DeliveryLaws.ScriptAnswersExactly` | pipeline/redis/clickhouse_writer.py:548-614 | When the script adds, which identifier it answers, when the stream is full and when the record is invalid, each as an exact condition |
| `DeliveryLaws.IntakeLosesNothing` | pipeline/redis/clickhouse_writer.py:2374-2454 | Receiving adds exactly the delivery received; parsing, rejecting, recording a rejection and starting a flush keep every delivery held |
| `DeliveryLaws.IntakeLetsGoExactly` | pipeline/redis/clickhouse_writer.py:3276-3325 | What giving up lets go of, and what the end of a flush queues and keeps, exactly |
| `DeliveryLaws.QueueLetsGoExactly` | pipeline/redis/clickhouse_writer.py:2902-2956 | An identifier leaves the acknowledgement queue if and only if its batch was acknowledged and observed and the frontier step was skipped or replied to |
| `DeliveryLaws.IdentitiesAreUnique` | pipeline/redis/clickhouse_writer.py:1866-1934 | No two boundaries carry the same observed identity |
| `DeliveryLaws.UndisturbedPublicationPublishes` | pipeline/redis/clickhouse_writer.py:1650-1850 | Fetch, script and commit publish the pending boundary under the identity the script answers, whatever its earlier attempts, and change no other row |
| `DeliveryLaws.UnansweredScriptIsCounted` | pipeline/redis/clickhouse_writer.py:1853-1934 | A script without an answer counts one attempt: the fifth quarantines, an earlier one leaves the row pending with what was observed |
| `DeliveryLaws.UnansweredPublishIsSettled` | pipeline/redis/clickhouse_writer.py:1738-1934 | A publish without its reply, followed by the record of its failure, leaves the row published if it had committed, and otherwise counts the attempt and keeps the identity |
| `DeliveryLaws.OwnedIdentityIsNotPublished` | pipeline/redis/clickhouse_writer.py:1738-1850 | A publish under an identity that another boundary owns changes nothing and goes on to be recorded as a transient failure |
| `World.TrimKeeps` | pipeline/redis/clickhouse_writer.py:2240-2318 | Trimming below a bound that no pending entry lies under and that is at most the head's successor keeps the invariant and all unread and pending entries |
| `World.AckDeleteKeeps` | pipeline/redis/clickhouse_writer.py:2913-2925 | Acknowledging and deleting accounted deliveries loses nothing |
| `World.AckDeleteRemembersLargest` | pipeline/redis/clickhouse_writer.py:2913-2925 | The largest identifier ever deleted is remembered |
| `World.FrontierPersists` | pipeline/redis/clickhouse_writer.py:2750-2900 | A watermark left alone keeps its promise under every growth of the stores |
| `StreamIds.PartsInvertsFormat` | pipeline/redis/clickhouse_writer.py:2336-2357 | Parsing accepts a text as an identifier if and only if it is the canonical print of that 64-bit pair |
| `StreamIds.KeyPreservesOrder` | pipeline/redis/clickhouse_writer.py:2336-2357 | The numeric form used by the protocol model is an order isomorphism |
| `StreamIds.NextIsExactSuccessor` | pipeline/redis/clickhouse_writer.py:2321-2334 | Exactly the identifier and those before it lie below its successor, which is again an identifier unless it was the last one |
| `Markers.CommitKeeps` | pipeline/redis/clickhouse_writer.py:1738-1850 | The guarded publish leaves the row alone or publishes it under the replied identifier, without touching attempts |
| `Markers.RecordKeeps` | pipeline/redis/clickhouse_writer.py:1866-2042 | A recorded failure never publishes and raises the attempts by exactly one, or changes nothing, also under an identity collision |
| `Markers.PhaseSurvives` | pipeline/redis/clickhouse_writer.py:1866-1934 | Any change made through a guarded update leaves other publishers' stale snapshots harmless |
| `Markers.RepliesAreClassified` | pipeline/redis/clickhouse_writer.py:1650-1737 | A publisher proceeds if and only if the identifier answered is real and agrees with what it observed; only the lack of a reply is transient; which failures carry which identity |
| `Markers.PublishSucceedsExactly` | pipeline/redis/clickhouse_writer.py:1738-1850 | A publish counts as done if and only if its reply is known and the row was still the publisher's or already published under that identifier; it fails for good exactly when the reply is known |
| `Markers.PublishTakesEffectExactly` | pipeline/redis/clickhouse_writer.py:1738-1850 | A pending row is published if and only if the transaction took effect at the publisher's own attempt |
| `Markers.FailureIsRecordedExactly` | pipeline/redis/clickhouse_writer.py:1866-1934 | When a failure is recorded, and what the row then is: one attempt more, the first identity kept, quarantined exactly when terminal or fifth |
| `Markers.TransientFailureStaysPending` | pipeline/redis/clickhouse_writer.py:1853-1934 | A publisher without a reply leaves the row pending, one attempt further, until the fifth |
| `Markers.CollisionIsRecordedExactly` | pipeline/redis/clickhouse_writer.py:1935-2042 | Under an identity that another boundary owns, only a terminal failure from an invalid record by a publisher that had observed nothing is recorded, and without that identity |
| `MarkerRuns.RunIsMonotone` | pipeline/redis/clickhouse_writer.py:1650-2042 | Over every run: published and quarantined absorb, the observed identity is write-once, attempts count recorded failures and stay at most five, and published implies marker identity = observed identity |
| `MarkerRuns.LostReplyNeverQuarantines` | pipeline/redis/clickhouse_writer.py:1738-1850 | A publish that committed without its reply stays published under its identifier in every continuation |
| `MarkerRuns.FifthFailureQuarantines` | pipeline/redis/clickhouse_writer.py:1853-1934 | Five recorded failures end in quarantine and no sixth attempt is fetched |
| `Isolation.OneFateEach` | pipeline/redis/clickhouse_writer.py:3239-3274 | Every event of a batch gets exactly one fate, whatever the driver answers |
| `Isolation.PicksPartition` | pipeline/redis/clickhouse_writer.py:3239-3274 | Durable, retry and dead events partition the batch as a multiset |
| `Isolation.MarkersNeverDie` | pipeline/redis/clickhouse_writer.py:3239-3274 | An insert never dead-letters a marker |
| `Isolation.RetryOnlyAfterTransient` | pipeline/redis/clickhouse_writer.py:3239-3274 | Without a transient failure nothing is left to retry |
| `Isolation.IsolationIsExact` | pipeline/redis/clickhouse_writer.py:3016-3026 | Against a driver that refuses exactly the batches with a bad row, exactly the bad rows are dead-lettered and all else is stored |
| `Isolation.IsolationIsBounded` | pipeline/redis/clickhouse_writer.py:3239-3274 | Isolation of n events uses at most 2n - 1 inserts |
| `Isolation.FatesAreAnswers` | pipeline/redis/clickhouse_writer.py:3239-3274 | For every driver, every event's fate is exactly what the inserts holding it were answered: stored, kept for retry, or given up alone |
| `Isolation.InsertsAreTrue` | pipeline/redis/clickhouse_writer.py:3239-3274 | Every recorded insert is a slice of the batch, in order, with the driver's own answer |
| `WriterBuffer.Writer.QueueDurableAck` | pipeline/redis/clickhouse_writer.py:2609-2617 | The loop appends each identifier once, keeping order |
| `WriterBuffer.Writer.InsertOrIsolate` | pipeline/redis/clickhouse_writer.py:3239-3274 | The recursive method returns the durable and retry events in batch order, rejects the dead ones in order, and reports a transient failure exactly when something is to be retried |
| `WriterBuffer.Writer.Flush` | pipeline/redis/clickhouse_writer.py:3276-3325 | A flush acknowledges, inserts, puts retries before later arrivals and acknowledges again unless the first acknowledgement failed; it succeeds exactly when only the arrivals are left and nothing is left to acknowledge; what it queues, stores, rejects and finalizes is stated by the lemmas about its function below |
| `WriterBuffer.Writer.ProcessMessages` | pipeline/redis/clickhouse_writer.py:2374-2454 | The loop leaves exactly the memory and counts of the intake function and never exceeds the buffer size |
| `WriterBuffer.IntakeStopsAtFirstBlocked` | pipeline/redis/clickhouse_writer.py:2428-2439 | Intake stops exactly at the first delivery that is well-formed, finds the buffer full and gets no room, in the memory reached by then; with none it takes everything |
| `WriterBuffer.IntakeConserves` | pipeline/redis/clickhouse_writer.py:2374-2454 | Every delivery taken in is stored, rejected or buffered, exactly once, and no other is |
| `WriterBuffer.IntakeRejectsOnlyWithCause` | pipeline/redis/clickhouse_writer.py:2390-2454 | A newly rejected event was taken in ill-formed, or its row was given up by an insert of a flush that intake itself made from a full buffer, after some number of the deliveries taken; a well-formed marker never is rejected |
| `WriterBuffer.DiesExactlyWhenBad` | pipeline/redis/clickhouse_writer.py:3239-3274 | Against a driver that refuses exactly the batches with a bad row, an insert gives up exactly the bad rows of its batch |
| `WriterBuffer.Writer.MakeRoom` | pipeline/redis/clickhouse_writer.py:2428-2439 | A full buffer is flushed only when a flush is due, and room is made exactly when that flush succeeds, which empties the buffer |
| `WriterBuffer.FlushConserves` | pipeline/redis/clickhouse_writer.py:3276-3325 | A flush moves each event to exactly one of stored, rejected or buffered |
| `WriterBuffer.FlushInsertQueuesExactly` | pipeline/redis/clickhouse_writer.py:3292-3312 | An insert queues an identifier for acknowledgement if and only if it was queued before, or its event was newly stored, or newly rejected with that rejection recorded on its own occasion |
| `WriterBuffer.FlushAccounts` | pipeline/redis/clickhouse_writer.py:3276-3325 | Over a whole flush the histories only grow, and an identifier is queued or finalized afterwards if and only if it was before or is newly owed so |
| `WriterBuffer.IntakeQueuesExactly` | pipeline/redis/clickhouse_writer.py:2374-2454 | The same over a whole intake with all the flushes it makes |
| `WriterBuffer.LeavesOnlyByAcknowledgement` | pipeline/redis/clickhouse_writer.py:3276-3325 | An identifier leaves the queue only by an acknowledgement that succeeded on an occasion of this flush, and is then finalized |
| `WriterBuffer.HealthyFlushFinalizesAll` | pipeline/redis/clickhouse_writer.py:3276-3325 | When acknowledgements succeed a flush leaves nothing to acknowledge |
| `WriterBuffer.FailedAckIsNotRepeated` | pipeline/redis/clickhouse_writer.py:3276-3325 | After a failed first acknowledgement a flush finalizes nothing and does not succeed |
| `WriterBuffer.FlushKeepsOrder` | pipeline/redis/clickhouse_writer.py:3276-3325 | What is left to retry comes first in its old order, then the arrivals; stored and rejected events are in buffer order |
| `WriterBuffer.BufferedCountsWellFormed` | pipeline/redis/clickhouse_writer.py:2374-2454 | The number reported as buffered is that of the well-formed deliveries taken |
| `WriterBuffer.IntakeWithRoomKeepsOrder` | pipeline/redis/clickhouse_writer.py:2374-2454 | While there is room, everything is taken and the well-formed deliveries are buffered in their order |
| `WriterBuffer.HealthyIntakeLeavesRoom` | pipeline/redis/clickhouse_writer.py:2428-2454 | When flushes are due, acknowledgements succeed and the driver never fails transiently, intake takes everything in, however much, and leaves room |
| `WriterBuffer.SplitFates` | pipeline/redis/clickhouse_writer.py:3239-3274 | Isolating a split batch is isolating the left half and then the right, for every fate and for the dead-letter history |
| `InsertGuard.OneInsertAtATime` | pipeline/redis/clickhouse_writer.py:3190-3237 | Over every run at most one INSERT is outstanding, locally or on the server, and it is the in-flight one |
| `InsertGuard.RetryOnlyAfterProof` | pipeline/redis/clickhouse_writer.py:3072-3188 | A new query identifier is issued only when every earlier query has settled and is gone from the server |
| `InsertGuard.ClosedMeansDrained` | pipeline/redis/clickhouse_writer.py:840-919 | After stop closed, nothing is outstanding and nothing ever starts or registers again |
| `InsertGuard.InsertCanGoThrough` | pipeline/redis/clickhouse_writer.py:3190-3237 | From every reachable open and idle state a query can be issued and go through |
| `InsertGuard.BrokenInsertCanBeDrained` | pipeline/redis/clickhouse_writer.py:3072-3188 | A running query that the server does not list can break, be drained and be proved absent, after which the writer is idle |
| `InsertGuard.IdleWriterCanStop` | pipeline/redis/clickhouse_writer.py:840-919 | An idle writer can be fenced and closed |
| `InsertGuard.FencedStartsNothing` | pipeline/redis/clickhouse_writer.py:840-919 | After the fence no query is issued and none starts; only calls that were running can still reach the server |
| `MigrationPlan.PlanAcceptsExactlyPrefixes` | pipeline/clickhouse/migrate.py:501-537 | A ledger read in any order is accepted if and only if its rows are exactly the first files; the plan is the remaining files |
| `MigrationPlan.PlanOfOrderedLedger` | pipeline/postgres/migrate.py:418-453 | A gap-free ledger is accepted if and only if it is a prefix of the files |
| `PostgresMigrations.BodiesCommitOnceInOrder` | pipeline/postgres/migrate.py:911-976 | For any runners with any releases and stale plans, bodies commit once each in version order, the ledger equals that history and is never shortened |
| `PostgresMigrations.LedgerIsPrefixOfRelease` | pipeline/postgres/migrate.py:979-994 | When all runners work from one file sequence the ledger is always an exact prefix of it and nobody is refused |
| `PostgresMigrations.NextFileCases` | pipeline/postgres/migrate.py:911-976 | The locked re-check confirms, refuses or appends the next file exactly according to the ledger's row at that position |
| `PostgresMigrations.ApplyKeeps` | pipeline/postgres/migrate.py:911-976 | One locked transaction keeps the ledger gap-free and every other runner's stale plan valid |
| `PostgresMigrations.FinishedMeansApplied` | pipeline/postgres/migrate.py:979-994 | In every reachable state all files of a finished runner are in the ledger, in their order |
| `PostgresMigrations.RefusedExactlyWhenDiverged` | pipeline/postgres/migrate.py:911-976 | A runner is refused if and only if the ledger is not a prefix of its files at the plan, or another row holds the next file's place |
| `PostgresMigrations.RunnerFinishes` | pipeline/postgres/migrate.py:979-994 | From whatever state others left, a runner of the one release finishes after exactly as many transactions as it has files left, and the ledger is then the release |
| `PostgresMigrations.RecheckDecides` | pipeline/postgres/migrate.py:911-976 | On any ledger: refused if and only if the version holds another row or is missing below a later one; otherwise confirmed or appended |
| `MaintenanceSafety.DrainExcludesCommits` | pipeline/clickhouse/migrate.py:1177-1219 | Between a successful drain and the next opening row no runtime INSERT can commit, and every mutation of a run is in flight only inside such an interval |
| `MaintenanceSafety.LedgerAndGateAreMonotone` | pipeline/clickhouse/migrate.py:1402-1423 | Over runs killed anywhere the ledger is gap-free and only grows, body k+1 starts only when exactly files 1..k are recorded, and gate generations strictly increase |
| `MaintenanceSafety.LedgerIsPrefixOfRunningRelease` | pipeline/clickhouse/migrate.py:1402-1423 | A run past its plan works on a ledger that is a prefix of its own files |
| `MaintenanceSafety.OpenMeansConverged` | pipeline/clickhouse/migrate.py:1364-1380 | The gate is open only while exactly the files and all backfills of a release that a run verified are recorded |
| `MaintenanceSafety.AppendedRowReadsBack` | pipeline/clickhouse/migrate.py:1140-1159 | The row a run appended is the one the gate reads back |
| `MaintenanceSafety.QueryKeeps` | pipeline/redis/clickhouse_writer.py:161-169 | Registering, evaluating the gate, committing and ending a runtime INSERT keep the invariant in every maintenance phase |
| `MaintenanceProgress.MaintenanceCanComplete` | pipeline/clickhouse/migrate.py:1331-1423 | For every release some run from a fresh database applies every file once from the files before it, records every backfill, and opens the gate, after which a runtime INSERT can commit |
| `MaintenanceProgress.KilledRunCanBeReplaced` | pipeline/clickhouse/migrate.py:1003-1043 | A killed run can be cleared away, whether its last statement landed or not, and another run can begin |
| `MaintenanceProgress.KilledStatementCanLand` | pipeline/clickhouse/migrate.py:1003-1043 | A statement on its way when its run was killed can still land before recovery |
| `MaintenanceProgress.BackfillsRunOnlyUnrecorded` | pipeline/clickhouse/migrate.py:1331-1362 | A backfill is run only while nothing is recorded under its name and skipped only when its own checksum is |
| `MaintenanceProgress.ConflictingBackfillBlocks` | pipeline/clickhouse/migrate.py:1339-1346 | A backfill recorded with another checksum is neither run nor skipped |
| `MaintenanceProgress.VerifiedExactlyWhenRecorded` | pipeline/clickhouse/migrate.py:1364-1380 | Convergence is verified if and only if the ledger is exactly the files and exactly its own checksum is recorded under each backfill's name |
| `MaintenanceProgress.GenerationsFit` | pipeline/clickhouse/migrate.py:1140-1159 | Over every run gate generations stay within 64 bits |
| `Batches.RetryableIsSuffix` | sdk/python/apdl/queue.py:236-283 | The retryable part of a delivery is exactly the suffix of the batch after its settled events |
| `Batches.SendsAreBounded` | sdk/python/apdl/queue.py:236-283 | A batch of n events costs between 1 and 2n - 1 sends |
| `Batches.SendsAreSlices` | sdk/python/apdl/queue.py:236-283 | Every payload sent for a batch is a contiguous slice of it |
| `Batches.FatesAreAnswers` | sdk/python/apdl/queue.py:236-283 | For every service: the sends are slices with the server's own answers; an event is accepted if and only if a send holding it was, and rejected if and only if a send holding it was refused for good or it was refused alone; one whose send must be repeated is in the retryable suffix; and something is left to retry only after such a send or once shutdown was seen |
| `Batches.NothingSentOnceStopping` | sdk/python/apdl/queue.py:258-276 | No send but the first is made once shutdown was seen |
| `Batches.BisectionIsExact` | sdk/python/apdl/queue.py:236-283 | Against a server that rejects exactly payloads with an invalid event, each valid event is accepted once and each invalid one rejected |
| `Batches.SendsFit` | sdk/python/apdl/types.py:257-295 | Every payload sent for a batch that fits the request limit fits it |
| `EventQueue.Queue.Enqueue` | sdk/python/apdl/queue.py:81-96 | An event is appended exactly when intake is open, the queue has room and the event is admissible |
| `EventQueue.Queue.TakeBatch` | sdk/python/apdl/queue.py:219-234 | The batch is the longest front of the queue within both bounds, and batch plus rest is the old queue |
| `EventQueue.Queue.RequeueFront` | sdk/python/apdl/queue.py:303-308 | Pushing the returned events one at a time, the last one first, puts them in front in their own order |
| `EventQueue.Queue.DeliverBatch` | sdk/python/apdl/queue.py:236-283 | The recursive method's counts, retryable events and payloads sent are those of the bisection function, whose fates are the server's answers (`Batches.FatesAreAnswers`) |
| `EventQueue.Queue.DrainLocked` | sdk/python/apdl/queue.py:200-217 | Queue, payloads sent and fates are those of the drain function over the batches taken and what arrived during each; the report counts exactly the events settled, each as accepted or rejected |
| `EventQueue.DrainLeavesSuffix` | sdk/python/apdl/queue.py:200-217 | For every service and all arrivals, what a drain leaves is exactly the old queue followed by what arrived during its batches, less as many events from the front as it settled |
| `EventQueue.DrainIsExact` | sdk/python/apdl/queue.py:200-217 | Against a server that rejects exactly payloads with an invalid event, a drain settles all events, later arrivals included: valid ones accepted, invalid ones rejected |
| `EventQueue.DrainStopsOnlyForCause` | sdk/python/apdl/queue.py:200-217 | A drain leaves events queued only when one of its sends was answered retryable or shutdown was seen |
| `EventQueue.FrontFits` | sdk/python/apdl/queue.py:219-234 | The front batch fits one request and no longer front within the batch size does |
| `Transport.Client.PostJson` | sdk/python/apdl/transport.py:71-128 | The loop is the POST function; at most one request more than the schedule has entries; the outcome is what the last response says; pauses as scheduled; one request once cancelled |
| `Transport.PostIsBounded` | sdk/python/apdl/transport.py:80-128 | From any attempt on, requests stay within the schedule, only the last response can settle, and it decides the outcome |
| `Transport.CancelledPostsOnce` | sdk/python/apdl/transport.py:74-79 | Once retries are cancelled exactly one request is sent and nothing is slept |
| `Transport.PausesAreScheduled` | sdk/python/apdl/transport.py:155-177 | One pause before each retry, as the rate limit or the schedule names it; only an injected sleep can add a last one before cancellation is seen |
| `Transport.StatusClasses` | sdk/python/apdl/transport.py:80-128 | Which status accepts, which refuses the payload, which may be tried again; all others refuse for good |
| `Transport.WithoutAnswer` | sdk/python/apdl/transport.py:80-128 | An unencodable payload is refused for good; a network error may be tried again |
| `Transport.PauseIsNamedOrScheduled` | sdk/python/apdl/transport.py:155-177 | A pause is what a 429 names, at most 60 seconds, and otherwise the schedule's entry |
| `Transport.PostStopsOnlyWhenDone` | sdk/python/apdl/transport.py:80-128 | A POST gives up before its schedule is exhausted only when a response settled it or cancellation was seen |
| `Shutdown.DrainsNeverOverlap` | sdk/python/apdl/queue.py:153-177 | Over every interleaving drains never overlap, queue plus in-flight stays within the queue bound plus one batch, and settled, in-flight and queued events are the admitted ones in order |
| `Shutdown.NothingAdmittedAfterFence` | sdk/python/apdl/queue.py:109-151 | After the fence no event is admitted |
| `Shutdown.ShutdownReportIsExact` | sdk/python/apdl/queue.py:109-151 | The final undelivered list is exactly the admitted events neither accepted nor rejected, in enqueue order, and stays so; the counts are exactly those of the events settled since the drain that was active when stop looked began, or since stop's own drain began when none was |
| `Shutdown.CancelledBatchCostsOneRequest` | sdk/python/apdl/queue.py:119-127 | In every reachable state a batch taken after retries were cancelled costs exactly one HTTP request, whatever the server and the network do |
| `Shutdown.CostsOneExactlyWhenNothingLeft` | sdk/python/apdl/queue.py:258-276 | A batch in flight is certain to cost one HTTP request if and only if it was taken after cancellation, or there is no retry schedule and it was taken after the stop signal or is a single event |
| `Shutdown.FencedBatchCanCostMore` | sdk/python/apdl/queue.py:116-127 | A run in which a batch taken between the fence and the stop signal costs three HTTP requests |
| `Shutdown.SignalledBatchIsSentOnce` | sdk/python/apdl/queue.py:258-276 | A batch taken after the stop signal is sent once, unbisected |
| `Shutdown.BatchCostIsBounded` | sdk/python/apdl/queue.py:236-283 | A batch of n events costs at least one HTTP request and at most 2n - 1 sends with all their retries |
| `Shutdown.PayloadsFit` | sdk/python/apdl/queue.py:219-234 | In every reachable state every payload sent fits 512 KiB |
| `Shutdown.ShutdownCanComplete` | sdk/python/apdl/queue.py:109-151 | From every reachable state in which nobody drains, stop can run to its end and reports every queued event |
| `Shutdown.DrainStopsForCause` | sdk/python/apdl/queue.py:200-217 | A drain stops only when it finds the queue empty or its batch comes back in part |
| `Purge.Store.DeleteFrom` | pipeline/clickhouse/delete_analytics_data.py:352-376 | Counting, conditional deletion and recounting leave exactly the rows the condition does not match, in order, report how many went, and none remains |
| `Purge.Store.DeleteTargetRows` | pipeline/clickhouse/delete_analytics_data.py:345-376 | Told from the old tables alone, the loop keeps in every table, in order, exactly the rows of other projects and, for one user, the rows of other users whose anonymous identity no assertion of that user in that project names; it reports how many went from each |
| `Purge.TargetsExactlyUnspared` | pipeline/clickhouse/delete_analytics_data.py:127-142 | The deletion condition with the aliases read from the assertions matches exactly the rows that the request covers |
| `Purge.RemainingCounts` | pipeline/clickhouse/delete_analytics_data.py:127-142 | Of every row that is spared as many copies remain as there were, and of every other row none |
| `Purge.AtomicRunsReachGoal` | pipeline/clickhouse/delete_analytics_data.py:379-419 | Over every run whose attempts were cut off between tables, inside tables before the alias table, or at it with none or all of its targets gone, a completed purge leaves exactly the rows outside the first attempt's target, in order |
| `Purge.ConvergesExactlyWhenOwnAssertionsOnly` | pipeline/clickhouse/delete_analytics_data.py:321-376 | Every completed run, wherever it was interrupted, ends at that goal if and only if at the start nobody else asserts, in that project, a non-empty anonymous identity that the requested user asserts, or the whole project is deleted |
| `Purge.ReachesGoalExactlyWhenBenign` | pipeline/clickhouse/delete_analytics_data.py:345-376 | One completed run ends at the goal if and only if none of its interruptions left an alias assertion of the first target out of reach of those remaining |
| `Purge.AtomicIsBenign` | pipeline/clickhouse/delete_analytics_data.py:27-36 | Such an interruption leaves every assertion of the first target within reach |
| `Purge.PartialAliasDeletionCanLeaveARow` | pipeline/clickhouse/delete_analytics_data.py:127-142 | A run of one interrupted and one finishing attempt that records completion with tables other than the goal |
| `PurgeResumption.ResumedDeletionsReachGoal` | pipeline/clickhouse/delete_analytics_data.py:345-419 | However attempts are cut off and the deletions they left running interleave with later attempts, once completion is recorded and every such deletion has ended, every table holds exactly the rows outside the first attempt's target |
| `MembershipSafety.EveryRunIsSound` | services/admin-api/app/members.py:326-437 | Over every run from a site without projects, in every project: the owner is a member with members:manage, all roles stay within the creator's, the audit replays to the membership table and the open invitations, the ownership audit replays to the owner, and quotas hold |
| `MembershipSafety.GrantsTraceToOwner` | services/admin-api/app/members.py:105-127 | A members:manage grant that differs after a run was changed by a step acting with the authority of whoever owned the project at that moment |
| `MembershipSafety.GrantChangesThroughOwner` | services/admin-api/app/members.py:198-236 | A step changes a members:manage grant only as the owner's own request, as acceptance of the current owner's offer, or as the creation of the project |
| `MembershipSafety.ManagerOffersComeFromOwner` | services/admin-api/app/members.py:326-437 | New invitations come only from an invite step, carry its data and a seven-day expiry, and offer members:manage only from the owner |
| `MembershipSafety.OwnershipMovesByOwner` | services/admin-api/app/projects.py:231-340 | Ownership changes only by the current owner's transfer, to an active member with members:manage |
| `MembershipSafety.AuditGrowsAttributed` | services/admin-api/app/members.py:130-170 | The audit only grows; each new row names the acting account, and its subject by its address |
| `MembershipSafety.AuditDeterminesTables` | services/admin-api/app/members.py:130-170 | Sites that satisfy the invariant and agree on a project's creator and audit agree on its members and open invitations |
| `MembershipSafety.EveryStepIsLawful` | services/admin-api/app/members.py:105-170 | Every step keeps the invariant, changes members:manage grants only with the owner's authority, and appends only audit rows that name the actor |
| `MembershipSafety.InviteKeeps` | services/admin-api/app/members.py:326-437 | Inviting, with the revocation of an expired invitation first, keeps the invariant |
| `MembershipSafety.AcceptKeeps` | services/admin-api/app/members.py:742-804 | Accepting a valid invitation keeps the invariant |
| `MembershipSafety.CreateKeepsQuota` | services/admin-api/app/projects.py:141-158 | Creating a project keeps every account within its quota |
| `MembershipLaws.NewRolesWereHeld` | services/admin-api/app/members.py:105-127 | A role that a member has after a step and not before was held at that moment by the actor, or by the inviter of the accepted invitation, unless the step creates the project |
| `MembershipLaws.OffersAreHeld` | services/admin-api/app/members.py:326-437 | A new invitation offers only roles that its inviter holds |
| `MembershipLaws.InvitationsEndForCause` | services/admin-api/app/members.py:451-511 | An invitation ends once: accepted by the account it made a member, revoked by a manager who holds all its roles, or revoked by a later invitation for its address once expired |
| `MembershipLaws.LostRolesWereTaken` | services/admin-api/app/members.py:604-674 | A role is lost only by removal, by an actor who holds all the member's roles, or by a replacement of that member's roles |
| `MembershipLaws.EveryStepHandsOnOnlyHeld` | services/admin-api/app/members.py:105-127 | Both of the above for every new role and every new invitation of one step |
| `MembershipLaws.ReplacementTakesHeldExactlyWhenWithin` | services/admin-api/app/members.py:518-599 | A replacement takes away only roles the actor holds if and only if the member's roles were within the actor's |
| `MembershipLaws.ReplacementCanTakeUnheldRoles` | services/admin-api/app/members.py:105-127 | A site in which a manager takes away a role that the manager does not hold |
| `MembershipLaws.CreateSucceedsExactly` | services/admin-api/app/projects.py:119-158 | A project is created if and only if the account is active, below its quota, and the name is free |
| `MembershipLaws.InviteSucceedsExactly` | services/admin-api/app/members.py:326-437 | An invitation is made if and only if an active manager holds the roles, members:manage only as owner, and no member and no open unexpired invitation has the address |
| `MembershipLaws.RevokeSucceedsExactly` | services/admin-api/app/members.py:451-511 | An invitation is revoked if and only if it is open in that project and an active manager holds its roles, members:manage only as owner |
| `MembershipLaws.ReplaceSucceedsExactly` | services/admin-api/app/members.py:518-599 | Roles are replaced if and only if the subject is a member, not the owner, with other roles, and an active manager holds the new ones; members:manage, before or after, only by the owner |
| `MembershipLaws.RemoveSucceedsExactly` | services/admin-api/app/members.py:604-674 | A member is removed if and only if not the owner and an active manager holds all the member's roles, members:manage only as owner |
| `MembershipLaws.AcceptSucceedsExactly` | services/admin-api/app/members.py:742-804 | An invitation is accepted if and only if it is open, unexpired, for the account's own address, the account is no member, and the inviter could make it again now |
| `MembershipLaws.TransferSucceedsExactly` | services/admin-api/app/projects.py:231-340 | Ownership moves if and only if the active owner names another active member with members:manage |
| `MembershipLaws.NonManagersAreForbidden` | services/admin-api/app/members.py:198-236 | Whoever is not an active manager is forbidden, whatever else the request says |
| `MembershipLaws.ManagersLearnWhatIsWrong` | services/admin-api/app/members.py:518-599 | To a manager a missing subject or invitation is not found, and the owner or unchanged roles are a conflict, before any question of roles |
| `MembershipLaws.RefusedAcceptanceIsUnavailable` | services/admin-api/app/members.py:742-804 | A refused acceptance is unavailable to all but a member under its own address |
| `MembershipLaws.CreateDoes` | services/admin-api/app/projects.py:119-193 | The new project has one member, its creator and owner, with the creator's roles; nothing else changes |
| `MembershipLaws.InviteDoes` | services/admin-api/app/members.py:326-437 | The new invitation is open for seven days; at most the expired one for its address is revoked; nothing else changes |
| `MembershipLaws.RevokeDoes` | services/admin-api/app/members.py:451-511 | Exactly that invitation is revoked; members stay |
| `MembershipLaws.ReplaceDoes` | services/admin-api/app/members.py:518-599 | Exactly that member's roles change |
| `MembershipLaws.RemoveDoes` | services/admin-api/app/members.py:604-674 | Exactly that member leaves |
| `MembershipLaws.AcceptDoes` | services/admin-api/app/members.py:742-804 | Exactly that account joins with the offered roles, and exactly that invitation is accepted |
| `MembershipLaws.TransferDoes` | services/admin-api/app/projects.py:231-340 | Exactly the owner changes |
| `MembershipConsole.Console.CreateProject` | services/admin-api/app/projects.py:119-193 | Ownerless insert, membership insert and owner update together run the whole transaction or nothing; from a valid site they keep the invariant of every run, change members:manage only with the owner's authority, and audit what it does; it succeeds exactly under the conditions of `MembershipLaws` and hands on only roles that are held |
| `MembershipConsole.Console.Invite` | services/admin-api/app/members.py:326-437 | The handler, with its rollback after a conflict, runs the whole transaction or nothing; from a valid site it keeps the invariant of every run, changes members:manage only with the owner's authority, and audits what it does; it succeeds exactly under the conditions of `MembershipLaws` and hands on only roles that are held |
| `MembershipConsole.Console.RevokeInvitation` | services/admin-api/app/members.py:451-511 | The handler runs the whole transaction or nothing; from a valid site it keeps the invariant of every run, changes members:manage only with the owner's authority, and audits what it does; it succeeds exactly under the conditions of `MembershipLaws` and hands on only roles that are held |
| `MembershipConsole.Console.ReplaceRoles` | services/admin-api/app/members.py:518-599 | The handler runs the whole transaction or nothing; from a valid site it keeps the invariant of every run, changes members:manage only with the owner's authority, and audits what it does; it succeeds exactly under the conditions of `MembershipLaws` and hands on only roles that are held |
| `MembershipConsole.Console.RemoveMember` | services/admin-api/app/members.py:604-674 | The handler, which audits before it deletes, runs the whole transaction or nothing; from a valid site it keeps the invariant of every run, changes members:manage only with the owner's authority, and audits what it does; it succeeds exactly under the conditions of `MembershipLaws` and hands on only roles that are held |
| `MembershipConsole.Console.Accept` | services/admin-api/app/members.py:742-804 | The handler runs the whole transaction or nothing; from a valid site it keeps the invariant of every run, changes members:manage only with the owner's authority, and audits what it does; it succeeds exactly under the conditions of `MembershipLaws` and hands on only roles that are held |
| `MembershipConsole.Console.TransferOwnership` | services/admin-api/app/projects.py:231-340 | The handler runs the whole transaction or nothing; from a valid site it keeps the invariant of every run, changes members:manage only with the owner's authority, and audits what it does; it succeeds exactly under the conditions of `MembershipLaws` and hands on only roles that are held |
| `RateBuckets.Limiter.Preflight` | services/admin-api/app/login_security.py:122-151 | Purge and loop are the run of one purge and one attempt per bucket, and the result is the largest delay |
| `RateBuckets.LargestIsLargest` | services/admin-api/app/login_security.py:138-151 | The accumulated result bounds every delay, is one of them, and is zero if and only if all are |
| `RateBuckets.AtMostTwiceTheLimit` | services/admin-api/app/login_security.py:80-119 | From any past, under any purging and attempts elsewhere, a bucket admits at most twice its limit in any closed interval of the window's length |
| `RateBuckets.TwiceTheLimitIsReached` | services/admin-api/app/login_security.py:89-107 | For every window and limit that bound is reached |
| `RateBuckets.PurgingNeverChangesADelay` | services/admin-api/app/login_security.py:130-136 | From any past and over every run with nondecreasing times, removing all purges changes no delay |
| `RateBuckets.DelayIsExact` | services/admin-api/app/login_security.py:114-119 | With no attempt on that bucket in between, an attempt after the returned delay is admitted and one a second or more before its end is refused |
| `RateBuckets.AdmittedExactlyBelowLimit` | services/admin-api/app/login_security.py:80-119 | Over every run of attempts and purges, an attempt is admitted if and only if fewer than the limit were made before it in its window, admitted or not |
| `RateBuckets.PurgeDropsExactlyStale` | services/admin-api/app/login_security.py:130-136 | A purge drops exactly the buckets untouched for more than two windows |

## Left out

- Redis administration: XGROUP SETID, destroying and re-creating the group, forged counters, and producers that trim unread entries are outside the step relation; the frontier's counting argument assumes that entries-read counts deliveries.
- Degrade writes after a suspicious reply: the write that follows a mismatched XACK+XDEL reply, an unreadable group or a lost pending entry is a separate step that may or may not happen, so no theorem relies on it.
- Running the writer without a PostgreSQL pool: the model always has the watermark and marker tables.
- Several streams at once: each stream's state is separate in the source; the model has one stream, and the concurrent finalization of several is not represented.
- Event parsing and validation: a delivery is an event with a row, a marker, or malformed; field rules, context checks and age limits are not modelled.
- Dead-letter stream trimming by its maximum length: a dead-letter write counts as permanent.
- ClickHouse deduplication and merging: a row is present or not.
- Catalog and schema assertions, request hashing, audit identity checks of deletions and checksums of files: fixed comparisons with outside state; checksums are compared as values.
- The deletion tool's own use of the gate: it reopens without proving convergence and is not a step of the maintenance system; `Purge` assumes the gate stays closed, so that only deletions change the tables.
- Advisory locks and their monitoring: no theorem needs them; runs of the ClickHouse migrator exclude each other through the durable owner table, and recovery of a killed run assumes that its last statement has landed or is proved absent.
- The writer's executor, timeouts, backoff delays, stream pressure and memory logging, counters: each call is a step that may succeed, fail or lose its reply; nothing about time or liveness is claimed. A query is assumed to reach the server only while its local driver call runs.
- JSON canonicalization (node counts, cycles, key order): an SDK event is its identity and its encoded size.
- Retry-After as an HTTP date: the source honours only the delay-seconds form.
- Address normalization, role-list order, tokens, hashes and password checks: addresses are given in normal form, canonical role lists are sets, and an invitation is found by its identifier.
- The operator scripts and the activation grant of agent roles: they write roles outside the console's transactions and can exceed the creator's roles, so they are not steps.
- Member, invitation and audit listings, session handling, proxying and the other HTTP routes: reads or single checks.
- RateBuckets.DelayIsExact: is about one bucket; a whole request may still be refused by another bucket whose limit the retry exhausts.
