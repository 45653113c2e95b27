# Verified model of a Bluesky event pipeline

The repository moves Bluesky posts from the Jetstream firehose to per-day language counts. An ingest
service consumes the firehose, produces to Kafka and checkpoints a cursor in Postgres. A Dagster asset
archives Kafka to Iceberg ("bronze"), a second one lands bronze in ClickHouse, and dbt models dedupe the
landing table ("staging") and aggregate it ("mart"). Each stage is incremental and may be killed at any
moment; each claims to lose nothing and to end where a full recomputation would. This project models the
three stages and proves when those claims hold, for all inputs, all interleavings and all crashes, and
gives the exact condition where they do not hold unconditionally.

`dafny verify dfyconfig.toml` checks everything (Dafny 4.11).

## Layout

| file | contents |
|---|---|
| Basics | options, choice, minima and maxima, sorting a set |
| Checkpointer | the watermark class, its fold specification, its closed form over any history, save accounting |
| Parse | JSON events, `to_model` with Python's exception subtyping, routing to skip, dead letter or produce |
| Jetstream | the reconnecting client, gaps and repeats in what it yields, the backoff schedule |
| Ingest | the ingest service as a crash machine: no loss over every run, and where it fails |
| Consume | the consume loop with back-pressure and re-entrant callbacks, against a ledger |
| Lifetime | one process from loading the cursor to the final save, refined to a run of the machine |
| Posts | bronze rows, columns, and the transposition between them |
| Archive | the archiver as a crash machine: accounting, multiplicities, and exactly what a crash loses or repeats |
| ArchiveLoop | the archive loop over batch, consumer, table and producer: what the polls determine, refinement, termination, draining |
| HighWater | copying rows newer than a high-water mark, over any history of appends and partial runs |
| Landing | the landing asset: watermark, scan, insertion in blocks |
| Staging | newest-wins dedupe as read with FINAL |
| Mart | the windowed re-aggregation against the full group-by, over any number of builds of any posts |
| Pipeline | bronze, landing, staging and mart together |

The collaborators (Kafka, Jetstream, Iceberg, ClickHouse, Postgres) appear only through what they promise:
in-order reads of a partition from the committed offset, end-of-partition only at the end, atomic appends
and commits, one callback per message in flight, a one-row cursor table, last-insert-wins and
newest-version-wins reads. What they decide (callback order, full queues, disconnects, scan order, failed
inserts, crashes, the clock) is an input.

## Where the code keeps less than its comments say

- A record with all its fields but one of the wrong type is skipped, not dead-lettered: pydantic's
  `ValidationError` is a `ValueError`, so ingest/main.py:147 catches it before ingest/main.py:150
  (`Parse.DroppedExactly`, `Parse.WrongTypeIsDropped`).
- Without a stored cursor a crash before the first save loses events (`Ingest.FreshStreamCanLose`); what is
  kept is everything from the first event of the process that saved first (`Ingest.FreshNoLoss`). Two events
  with one time_us can lose one of them (`Ingest.EqualStampsCanLose`). The watermark moves backwards exactly
  when a late cursor lies below it and below everything outstanding (`Checkpointer.LateCursorRegresses`,
  `Checkpointer.RegressesIff`).
- The archiver's commit past an undecodable record also commits past earlier rows that are only in memory,
  and a crash then loses them (`Archive.OvertakingDecides`). Nor does that commit stop a rerun from
  dead-lettering the record again: the next flush moves the commit back exactly when the last record read was
  undecodable and rows of its partition are batched (`Archive.FlushMovesBackIff`), and each crash with a
  record so reopened sends it once more (`Archive.DeadLetterMultiplicity`, `Archive.NeverResentIff`).
- A row appended to bronze at or behind the landing mark, or left behind by a load that died after newer
  rows, never arrives downstream (`HighWater.StrandedForever`).
- One post dated in the future closes the mart's window for the present days
  (`Mart.FutureGroupFreezes`); a first build over nothing closes it for good
  (`Mart.EmptyFirstBuildStaysEmpty`); a group whose posts have all moved away is never removed
  (`Mart.EmptiedGroupStays`). `Mart.MartIffCurrent` says exactly when the mart is right.

## Model

| member | source | states |
|---|---|---|
| `Checkpointer.ScanIsFold` | ingest/main.py:90-101 | scanning outstanding cursors in ascending order, deleting acked ones until the first unacked, folds exactly the cursors at or below which everything outstanding is acked |
| `Checkpointer.CursorCheckpointer.Register` | ingest/main.py:77-79 | a cursor becomes outstanding and unacked; one already outstanding keeps its ack state |
| `Checkpointer.CursorCheckpointer.OnAck` | ingest/main.py:81-88 | a failure changes nothing, a success marks the cursor if outstanding and folds |
| `Checkpointer.CursorCheckpointer.AdvanceWatermark` | ingest/main.py:90-101 | the in-place loop computes the declarative fold |
| `Checkpointer.CursorCheckpointer.MaybeSave` | ingest/main.py:103-117 | the stored row and counters change exactly when a new watermark is due by count or by time |
| `Checkpointer.CursorCheckpointer.FinalSave` | ingest/main.py:119-122 | an unsaved watermark is stored, whatever the cadence; if the row was the last saved cursor it is the watermark afterwards |
| `Checkpointer.WatermarkClosedForm` | ingest/main.py:77-101 | for every history of registrations in order, acks in any order and saves, the watermark is the greatest registered cursor at or below which every registered cursor is acked |
| `Checkpointer.WatermarkIgnoresAckOrder` | ingest/main.py:56-65 | two histories with the same registrations and acks have the same watermark |
| `Checkpointer.AckedIff` | ingest/main.py:81-88 | what counts as acked: a success reported after the cursor was registered |
| `Checkpointer.InOrderIff` | ingest/main.py:56-65 | what in order means: of two registrations the earlier is the lower cursor |
| `Checkpointer.HistoryExact` | ingest/main.py:77-117 | every such history keeps the outstanding map equal to the unfolded registrations with their ack state, and the save accounting |
| `Checkpointer.ReplayWindow` | ingest/main.py:90-117 | the number of registered cursors above the saved one is acks since the save plus outstanding ones |
| `Checkpointer.LeastAlwaysUnacked` | ingest/main.py:90-101 | over any history, in any order, the outstanding map is empty or its least cursor is unacked |
| `Checkpointer.CadenceBound` | ingest/main.py:103-117 | right after a save opportunity in any history the watermark is saved, or fewer cursors than the cadence asks for have been folded, and less time has passed, since the last save |
| `Checkpointer.SavesIff` | ingest/main.py:103-117 | in any history a save opportunity writes the watermark iff it is unsaved and at least the cadence's cursors were folded or its seconds have passed since the last save; otherwise nothing changes |
| `Checkpointer.FinalRow` | ingest/main.py:119-122 | after any history, whatever was saved on the way, the final save leaves the watermark in the row, or the row as it was found if there is no watermark |
| `Checkpointer.FinalRowIsWatermark` | ingest/main.py:179-204 | so with registrations in order the row left is the greatest registered cursor at or below which everything registered was acked |
| `Checkpointer.CountersAreHistory` | ingest/main.py:90-117 | over any history the counter is the number of cursors that left the outstanding map since the last save, and the clock that save's |
| `Checkpointer.LateCursorRegresses` | ingest/main.py:96-100 | registering and acking a cursor that is not outstanding moves the watermark to it iff it lies below everything outstanding, so back iff it also lies below the watermark |
| `Checkpointer.RegressesIff` | ingest/main.py:81-101 | over any history whatsoever, an operation moves the watermark back iff it acks the least outstanding cursor and everything that becomes foldable lies below the watermark |
| `Checkpointer.NonDecreasingNeverRegresses` | ingest/main.py:56-65 | over any history of non-decreasing registrations, repeats included, the watermark never moves back and everything registered at or below it has been acked |
| `Checkpointer.SoundOnAck` | ingest/main.py:81-101 | with repeats allowed, an ack never moves the watermark back nor past an unacked registration |
| `Parse.RoutingTable` | ingest/main.py:145-169 | for every event, an iff on the event's shape for being produced, and for being dead-lettered; a produced event carries its time_us as cursor |
| `Parse.ModelFields` | ingest/parse.py:34-98 | a model is built only from an ingestable event and carries that event's own fields; reply uris are those of the reply block and of nothing else |
| `Parse.ModelIff` | ingest/parse.py:34-98 | a model is built exactly for the events that are complete, of a known collection and well typed |
| `Parse.RouteCarries` | ingest/main.py:145-169 | a produced event carries its own integer time_us, a dead-lettered one is labelled with the collection it names, "unknown", or missing_time_us |
| `Parse.DroppedExactly` | ingest/main.py:145-154 | a create commit of a known collection is skipped iff all fields are present and one has the wrong type |
| `Parse.WrongTypeIsDropped` | ingest/main.py:147-154 | a follow with a numeric subject is complete and yet skipped |
| `Jetstream.DelayBounds` | ingest/jetstream_client.py:25-36 | a delay lies within base times one minus and one plus the ratio, and clipping at zero never happens |
| `Jetstream.DelayFillsBand` | ingest/jetstream_client.py:35-36 | every delay in that band comes from some random value |
| `Jetstream.BaseStarts` | ingest/jetstream_client.py:31-34 | the first wait is around the initial delay, or the cap if that is smaller |
| `Jetstream.BaseDoubles` | ingest/jetstream_client.py:31-34 | each attempt doubles the base until it meets the cap |
| `Jetstream.DelayNonDecreasing` | ingest/jetstream_client.py:25-36 | for a fixed random value a later attempt never waits less |
| `Jetstream.DelayLevelsOff` | ingest/jetstream_client.py:31-34 | with a positive initial delay the base equals its cap from some attempt on |
| `Jetstream.TotalSleep` | ingest/jetstream_client.py:73-82 | over any series of connection attempts the client sleeps at most the cap with full jitter for each sleep, and at most one sleep per attempt |
| `Jetstream.OutageSchedule` | ingest/jetstream_client.py:56-82 | a dropped connection followed by n refusals sleeps through attempts 0 to n, from a counter reset by the connection |
| `Jetstream.AttemptsSince` | ingest/jetstream_client.py:56-82 | the attempt counter is the number of attempts since the last connection, plus one if that connection ended with an error |
| `Jetstream.OneSleepPerFailure` | ingest/jetstream_client.py:73-82 | there is one sleep for each failed attempt and none for any other, its length decided by the attempts since the last connection |
| `Jetstream.JetstreamClient.Events` | ingest/jetstream_client.py:50-82 | for any series of disconnects and refusals the client yields exactly what each connection served, each asked for from the latest cursor seen, without gaps, and sleeps by the attempt counter |
| `Jetstream.EveryServedYielded` | ingest/jetstream_client.py:56-72 | attempt by attempt: what a server may serve from the latest cursor yielded is yielded next, all of it and in order; any other attempt fails and adds nothing; and nothing else is yielded |
| `Jetstream.YieldStep` | ingest/jetstream_client.py:64-71 | yielding the next message of a connection made from the latest seen cursor keeps the order gap-free |
| `Jetstream.NothingSkipped` | ingest/jetstream_client.py:56-72 | in a gap-free order every source event between the start cursor and the last yield has been yielded |
| `Jetstream.YieldsGapless` | ingest/jetstream_client.py:56-72 | whatever the connections do, what is yielded has no gaps |
| `Jetstream.YieldsFollowed` | ingest/jetstream_client.py:56-72 | each yield is the next source event or one a server may start from when asked for the latest cursor seen so far |
| `Jetstream.RepeatsOnlyAtReconnect` | ingest/jetstream_client.py:56-72 | for any start and any mix of stamped and unstamped events, each yield but the first of a reconnect is the next source event, and a reconnect after a stamped event repeats that event or goes on to the next |
| `Jetstream.RepeatsBounded` | ingest/jetstream_client.py:56-72 | there is at most one repeat for each reconnect |
| `Ingest.NoLoss` | ingest/main.py:77-172 | over every run of pulls, acks in any order, failures, full queues, reconnects, saves, shutdowns, crashes and restarts from a stored cursor, on a stream with strictly increasing time_us, each accepted event at or below the stored cursor was acked by Kafka and each malformed one handed to the dead-letter producer |
| `Ingest.DeliveredIff` | ingest/producer.py:116-119 | over any run a cursor counts as delivered iff a callback of a message in flight reported success for it |
| `Ingest.StoredCursorMonotone` | ingest/main.py:110-122 | along every such run the stored cursor never decreases |
| `Ingest.UnackedPins` | ingest/main.py:81-101 | in every reachable state a registered cursor never acked lies strictly above all this process has saved and above what any next step saves |
| `Ingest.StepKeeps` | ingest/main.py:125-204 | every single action keeps the invariant that ties source, client, checkpointer, queue and stored row |
| `Ingest.WatermarkCovered` | ingest/main.py:56-65 | at any moment everything between the first cursor and the watermark is delivered or dead-lettered, and the watermark is not below the stored row |
| `Ingest.FreshStreamCanLose` | ingest/cursor_store.py:35-38 | with no stored row, for any two consecutive accepted events there is a run that stores the second cursor without the first ever being delivered |
| `Ingest.FreshNoLoss` | ingest/main.py:77-172 | from a fresh stream, over every run, once a cursor is stored nothing is missing from the first stamped event the storing process saw up to that cursor |
| `Ingest.EqualStampsCanLose` | ingest/main.py:77-101 | of two accepted events with one time_us, one ack lets the stored cursor pass both with the other message undelivered, and a restart need not see either |
| `Consume.IngestProducer.Enqueue` | ingest/producer.py:79-102 | succeeds iff one of six attempts finds room and queues the message exactly once or not at all; each of the first five attempts that finds the queue full is followed by a poll and its callbacks, and no other callbacks run |
| `Consume.PollsFollow` | ingest/producer.py:94-100 | read off the attempts alone: one poll after each of the leading full attempts among the first five |
| `Consume.Serve` | ingest/main.py:81-88 | running delivery callbacks in order is replaying their acks |
| `Consume.HandleEvent` | ingest/main.py:145-169 | what an event sends is its own record under its own time_us, or itself as a dead letter under the collection it names; with its counter and its checkpointer operations; none of the first two when the queue stayed full |
| `Consume.MessagesSay` | ingest/main.py:139-171 | every message of an event is its own model with its own time_us, or the event itself intended for the collection it names; there is one exactly when the event is ingestable and stamped or has a reason to be dead-lettered |
| `Consume.Iterate` | ingest/main.py:139-172 | one iteration makes one entry in the ledger of messages, counters, checkpointer and stored row, or is cut short after registration |
| `Consume.ConsumeLoop` | ingest/main.py:125-176 | the loop ends by exhaustion, stop or a full queue, and leaves the ledger of exactly the events before that point |
| `Consume.Run` | ingest/main.py:186-204 | the drain flushes first and saves last, on every way out of the loop; with registrations in order the row it leaves is then the watermark (`Checkpointer.FinalRowIsWatermark`) |
| `Consume.EntriesAre` | ingest/main.py:139-172 | the ledger of a loop is its outbox in stream order, its two counters and the replay of its operations |
| `Consume.EveryEventOnce` | ingest/main.py:145-169 | processed events are skipped, dead-lettered or produced, exactly one of them each, and the counters equal the messages sent |
| `Consume.OutboxSays` | ingest/main.py:139-171 | message by message in stream order, what the loop sends is the own record or own dead letter of an event, no event sends two, and every event that has one sends it |
| `Consume.CountersCount` | ingest/metrics.py:34-39 | label by label, the counters are the numbers of events that become records of that collection and of those dead-lettered under that label |
| `Consume.RegisteredThenProduced` | ingest/main.py:166-169 | the cursors registered are the cursors of the records sent, in the same order |
| `Consume.LoopWatermark` | ingest/main.py:56-65 | on a stream in clock order the loop's watermark is always the greatest cursor at or below which every record sent is acked |
| `Lifetime.EventRuns` | ingest/main.py:139-172 | one loop iteration is a run of the crash machine with the same checkpointer, stored row, deliveries and dead letters |
| `Lifetime.ProcessIsMachineRun` | ingest/main.py:179-204 | a whole process, with or without a stored cursor and however its loop ends, is a run of the crash machine with the same stored row, deliveries and dead letters |
| `Lifetime.ProcessLosesNothing` | ingest/main.py:179-204 | so the row a process leaves loses no accepted event and passes no malformed one that was not sent to the dead-letter topic, from the stored cursor on or, on a fresh stream, from the first stamped event on |
| `Lifetime.EndRowIsWatermark` | ingest/main.py:179-204 | with registrations in order the row a process leaves is the greatest cursor at or below which everything registered was acked, or the row it found if there is none |
| `Lifetime.RunService` | ingest/main.py:179-204 | the imperative service, from loading the cursor through any series of connections to the final save, leaves such a row, which with registrations in order is the watermark of everything it registered; what it queued is, in stream order, the own record or dead letter of each event it finished that has one |
| `Posts.ToArrow` | dagster/bsky_dagster/transforms/batch.py:53-69 | the columns hold exactly the held rows |
| `Posts.ToRows` | dagster/bsky_dagster/assets/landing.py:72-74 | zipping columns yields the rows they hold |
| `Posts.ColumnsByName` | dagster/bsky_dagster/transforms/batch.py:53-69 | each value of a row is under its own column name |
| `Posts.TabulatesUnique` | dagster/bsky_dagster/assets/landing.py:72-74 | columns determine their rows, so transposing and zipping back gives the same rows in the same order |
| `Archive.StepKeeps` | dagster/bsky_dagster/assets/bronze.py:76-136 | reads, flushes, side commits and crashes between any two effects keep the invariant over offsets, batch, bronze and dead letters |
| `Archive.NothingUnaccounted` | dagster/bsky_dagster/assets/bronze.py:76-136 | after every run with crashes, each record below a committed offset is in bronze, batched or lost to a crash if decodable and dead-lettered if not; lost rows are nowhere |
| `Archive.ReplayMultiplicity` | dagster/bsky_dagster/assets/bronze.py:76-85 | a record is in bronze once per flush of it that crashed between append and commit, plus once if a flush of it committed |
| `Archive.BronzeCountsFlushes` | dagster/bsky_dagster/assets/bronze.py:76-85 | read off the run: a record is in bronze exactly as often as flushes appended it, and at most one of those went on to commit it |
| `Archive.CrashLosesExactly` | dagster/bsky_dagster/assets/bronze.py:127-132 | a crash loses a record iff some unappended row is batched below an offset committed past an undecodable record |
| `Archive.LostIffRiskyCrash` | dagster/bsky_dagster/assets/bronze.py:76-136 | over a whole run nothing is ever lost iff no crash came while such a row was held; a crash between append and commit is always harmless |
| `Archive.LostIffDropped` | dagster/bsky_dagster/assets/bronze.py:76-136 | a record is lost iff the process died, outside a flush, while it was batched below its commit and in bronze nowhere |
| `Archive.OvertakingDecides` | dagster/bsky_dagster/assets/bronze.py:127-132 | if no undecodable record was read while its partition had batched rows a crash loses nothing; before any torn flush the converse holds too |
| `Archive.FlushMovesBackIff` | dagster/bsky_dagster/assets/bronze.py:76-85 | in every reachable state a flush moves a partition's commit back iff the partition has batched rows and the last record read from it is undecodable |
| `Archive.ReopenedByFlush` | dagster/bsky_dagster/assets/bronze.py:127-132 | while the process lives, a dead-lettered record comes to lie at or above its commit only by a flush that moves the commit back to it or below |
| `Archive.DeadLetterMultiplicity` | dagster/bsky_dagster/assets/bronze.py:127-132 | after every run an undecodable record has been dead-lettered once per crash that found it passed but not committed past, plus once if it is passed now |
| `Archive.DeadLettersCountDeaths` | dagster/bsky_dagster/assets/bronze.py:127-132 | read off the run: an undecodable record is dead-lettered once per death that left it sent and not committed past, plus once if it is passed now |
| `Archive.NeverResentIff` | dagster/bsky_dagster/assets/bronze.py:127-132 | over a whole run no record has to be dead-lettered again iff no process died between sending one and committing past it, nor with a dead-lettered record reopened |
| `Archive.FlushCanUncommit` | dagster/bsky_dagster/assets/bronze.py:79-82 | a good then a bad record: the flush moves the commit from 2 back to 1; a crash before it loses the good one, a crash after it has the bad one dead-lettered twice |
| `Archive.AtEndComplete` | dagster/bsky_dagster/assets/bronze.py:87-104 | at the end of every partition with an empty batch, every record is archived, lost earlier, or dead-lettered, and nothing decodable is left above a commit |
| `Archive.RerunArchivesNothing` | dagster/bsky_dagster/assets/bronze.py:87-104 | from then on no run on the same logs changes bronze |
| `Archive.RerunResends` | dagster/bsky_dagster/assets/bronze.py:127-132 | after a drained process the next one dead-letters again only records left uncommitted, each at most once, and each exactly once if it drains too |
| `ArchiveLoop.BronzeBatch.Add` | dagster/bsky_dagster/transforms/batch.py:31-35 | appends the row and keeps each partition's offset the highest batched one |
| `ArchiveLoop.Consumer.Commit` | dagster/bsky_dagster/assets/bronze.py:154-161 | the next-to-read offset of each partition given, and no other partition |
| `ArchiveLoop.Run.Write` | dagster/bsky_dagster/assets/bronze.py:76-85 | an empty batch changes nothing; otherwise its rows are appended in order, their offsets committed, the batch cleared and the count raised |
| `ArchiveLoop.Run.Take` | dagster/bsky_dagster/assets/bronze.py:116-134 | a decodable record joins the batch with its own place, an undecodable one is dead-lettered and committed past; either clears the partition's end mark |
| `ArchiveLoop.Run.OnMessage` | dagster/bsky_dagster/assets/bronze.py:107-136 | one message and the flush it makes due (`ArchiveLoop.AppendsWhenDue` says when), exactly, as a run of the archive machine, with less left unread |
| `ArchiveLoop.Run.OnEof` | dagster/bsky_dagster/assets/bronze.py:107-113 | an end mark is recorded only at the end of its log, counts as activity, and brings the run closer to its end |
| `ArchiveLoop.Run.OnQuiet` | dagster/bsky_dagster/assets/bronze.py:97-105 | flush if due (`ArchiveLoop.AppendsWhenDue`), then stop exactly when nothing is held and the topic is drained or silent for over fifteen seconds; otherwise what is left to do shrinks |
| `ArchiveLoop.PostsBronze` | dagster/bsky_dagster/assets/bronze.py:53-136 | for any polls the run ends; the polls determine in which turn, for which reason and with what tables, offsets and dead letters; that is a crash-free run of the machine; archived and held rows never exceed the cap, stopping at the cap archives exactly the cap, stopping drained is at the end of every log |
| `ArchiveLoop.AppendsWhenDue` | dagster/bsky_dagster/assets/bronze.py:97-136 | a good record or a poll that brings nothing: while fewer rows than the batch size are held and less than the batch time has passed since the last append, table and commits stay as they are and the rows stay held; otherwise exactly the held rows are appended; a bad record or an end mark appends nothing |
| `ArchiveLoop.AppendsInBatches` | dagster/bsky_dagster/transforms/batch.py:43-47 | over any polls every append a turn makes has at least the batch size of rows or comes at least the batch time after the append before it |
| `ArchiveLoop.StopsFor` | dagster/bsky_dagster/assets/bronze.py:95-138 | the loop ends at the cap, at a failed poll, or with nothing held: drained if the assignment is known and each of its partitions has ended, idle after more than fifteen seconds without a message; a failed run appends nothing more, any other all it holds |
| `ArchiveLoop.PastIdlePoll` | dagster/bsky_dagster/assets/bronze.py:97-105 | and in no earlier turn did any of these hold |
| `ArchiveLoop.AttentiveEndsWell` | dagster/bsky_dagster/assets/bronze.py:95-138 | if the polls keep delivering what is pending and are never silent for more than fifteen seconds, the run ends drained or at the cap |
| `ArchiveLoop.AddedAfterStart` | dagster/bsky_dagster/assets/bronze.py:121-126 | every row a run adds carries an ingest_ts at or after the run's start, in the order added |
| `ArchiveLoop.DrainThenRerun` | dagster/bsky_dagster/assets/bronze.py:87-104 | if a run stops drained, every record not lost before is in the table or dead-lettered, and a second run archives zero rows and dead-letters again only records left uncommitted: each once if it drains too, so none iff all was committed |
| `HighWater.ExactIffClean` | dagster/bsky_dagster/assets/landing.py:39-57 | over any history of appends, scan orders, full and partial runs, a full run leaves exactly the source's rows iff every append was newer than the mark and every run left only rows newer than those it inserted; rows are never duplicated |
| `HighWater.FullRunExact` | dagster/bsky_dagster/assets/landing.py:46-57 | a full run makes the tables equal iff no missing row is at or behind the mark |
| `HighWater.EmptyTable` | dagster/bsky_dagster/assets/landing.py:39-44 | an empty landing table selects everything; an empty staging table does until it is built, and from then on never takes a row of the epoch |
| `HighWater.MarkIsNewest` | dagster/bsky_dagster/assets/landing.py:46-52 | once a table holds rows a run selects exactly the rows newer than all of them |
| `HighWater.StrandedForever` | dagster/bsky_dagster/assets/landing.py:46-52 | a missing row at or behind the mark never arrives, whatever follows |
| `HighWater.StrandedIffUnclean` | dagster/bsky_dagster/assets/landing.py:46-57 | some row is stranded iff some step of the history put one behind the mark |
| `HighWater.InTurnIsClean` | dbt/models/staging/stg_posts.sql:1-4 | appends newer than all earlier rows with runs that complete are always clean |
| `Landing.InsertArrow` | dagster/bsky_dagster/assets/landing.py:64-76 | rows are inserted in order in blocks of the given size, only the last shorter; a size of zero is an error and a negative one inserts nothing; the load fails iff one of the insert calls it made raised, that call being the last, with exactly the earlier blocks stored and its own only if it raised afterwards; a finished load returns the row count |
| `Landing.PostsLanding` | dagster/bsky_dagster/assets/landing.py:33-61 | a landing run is a run of the high-water copy with the rows it stored and fails exactly as its inserts do; a zero block size fails iff there is something to load; finished with a positive size, landing equals bronze iff no row was stranded |
| `Staging.FinalShowsWinner` | dbt/models/staging/stg_posts.sql:9-10 | for each key FINAL shows the newest row, and among equally new ones the last inserted; a key is an author and a record key (`Staging.EveryRowShown`) |
| `Staging.EveryRowShown` | dbt/models/staging/stg_posts.sql:9-12 | each row has an entry with its own did and rkey and no older ingest_ts |
| `Staging.EntriesDiffer` | dbt/models/staging/stg_posts.sql:9-12 | no two entries agree on did and rkey |
| `Staging.EntriesCount` | dbt/models/staging/stg_posts.sql:9-12 | there are as many entries as distinct pairs of did and rkey among the rows |
| `Staging.OrderIrrelevant` | dbt/models/staging/stg_posts.sql:1-4 | without conflicting ties the read depends only on which rows are there |
| `Staging.TieGoesToTheLast` | dbt/models/staging/stg_posts.sql:9-10 | with a tie the read is independent of order iff the two posts agree |
| `Staging.ReplayShowsNothingNew` | dbt/models/staging/stg_posts.sql:1-4 | rows that repeat known posts, at any timestamps, change no post shown |
| `Mart.BuildAt` | dbt/models/marts/mart_posts_by_lang_daily.sql:17-28 | one build sets each group of the window that has posts to its full tally, distinct authors and mentions, and leaves every other group as it was |
| `Mart.BuildRightIff` | dbt/models/marts/mart_posts_by_lang_daily.sql:17-28 | from any mart, one build over any posts gives the full aggregate iff no group of the window has lost all its posts and every older group was right already |
| `Mart.RebuildExact` | dbt/models/marts/mart_posts_by_lang_daily.sql:17-28 | from the full aggregate, with posts added, changed, moved or deleted, a build gives the new full aggregate iff no group of the window has emptied and every older group has kept its tally |
| `Mart.GroupHasHit` | dbt/models/marts/mart_posts_by_lang_daily.sql:17-22 | a group exists iff some post has its day and one of its languages, or none and the group is "und" |
| `Mart.GroupsAreSpoken` | dbt/models/marts/mart_posts_by_lang_daily.sql:17-22 | the full group-by has a group iff some post of its day lists its language, or lists none and the language is "und" |
| `Mart.AuthorsAreDistinct` | dbt/models/marts/mart_posts_by_lang_daily.sql:21 | the author count of a group is the number of distinct dids with a post of that day in that language |
| `Mart.PostsAreMentions` | dbt/models/marts/mart_posts_by_lang_daily.sql:19-20 | its post count is the number of times the posts of that day mention the language, repeats included |
| `Mart.ListingIsWinners` | dbt/models/marts/mart_posts_by_lang_daily.sql:18-22 | what is aggregated is, for each did and rkey, the day and languages of the winning staging row |
| `Mart.AuthorsOfRows` | dbt/models/marts/mart_posts_by_lang_daily.sql:17-28 | said of the staging rows themselves: the authors counted are the dids of the winning rows of that day and language |
| `Mart.BuildExact` | dbt/models/marts/mart_posts_by_lang_daily.sql:1-28 | from a mart equal to the full aggregate, one build over grown posts gives the new full aggregate iff no added post is older than the window |
| `Mart.BuiltShowsLast` | dbt/models/marts/mart_posts_by_lang_daily.sql:6-28 | after any number of builds of any posts a group shows its tally in the last snapshot whose build inserted it |
| `Mart.MartIffCurrent` | dbt/models/marts/mart_posts_by_lang_daily.sql:1-28 | over any number of builds of any posts, from any first build, the mart equals the full group-by iff every group had its present tally in the last snapshot that inserted it and no group without posts was ever inserted |
| `Mart.MartIffNeverLate` | dbt/models/marts/mart_posts_by_lang_daily.sql:1-28 | over any number of builds of growing posts the mart equals the full group-by, counts and distinct authors, iff no build ever saw a new post below its window |
| `Mart.BuiltNewest` | dbt/models/marts/mart_posts_by_lang_daily.sql:23-27 | over any number of builds of growing posts the newest day of the mart is that of the posts, whatever was missed |
| `Mart.MartIffNoOldPost` | dbt/models/marts/mart_posts_by_lang_daily.sql:1-28 | said of the posts alone: the mart is right iff no post ever arrived more than two days older than the newest post before it |
| `Mart.FutureGroupFreezes` | dbt/models/marts/mart_posts_by_lang_daily.sql:26 | a group dated d freezes every group more than two days older for all later builds |
| `Mart.EmptyFirstBuildStaysEmpty` | dbt/models/marts/mart_posts_by_lang_daily.sql:26 | after a first build over no posts the window starts at day 65534 and the mart stays empty |
| `Mart.EmptiedGroupStays` | dbt/models/marts/mart_posts_by_lang_daily.sql:6-15 | a group that no longer has posts stays, so the mart is wrong for good |
| `Mart.ReplayNeverInflates` | dbt/models/marts/mart_posts_by_lang_daily.sql:1-4 | rows that repeat known posts leave every build as it would have been, and a correct mart exactly as it was |
| `Pipeline.RunIsTwoCopies` | dagster/bsky_dagster/assets/landing.py:39-57 | landing and staging are two high-water copies, the second fed by exactly what the first inserts |
| `Pipeline.StagedIffClean` | dbt/models/staging/stg_posts.sql:17-32 | after any run, a full load and a full staging run leave staging with exactly bronze's rows iff no step of either copy put a row behind its mark |
| `Pipeline.OrderlyIsStaged` | dbt/models/staging/stg_posts.sql:17-32 | with appends newer than all earlier ones and completed runs, staging always ends with exactly bronze's rows |
| `Pipeline.ArchiverIsOrderly` | dagster/bsky_dagster/assets/bronze.py:121-126 | an archiver run whose clock starts after the newest row of bronze is such an append |
| `Pipeline.OrderlyReadIsBronze` | dbt/models/staging/stg_posts.sql:1-32 | and if equal keys and timestamps mean equal posts, staging then reads as the newest row of each key of bronze |
| `Pipeline.MartIsBronzeIffCurrent` | dbt/models/marts/mart_posts_by_lang_daily.sql:1-28 | end to end over every orderly run, with posts that may change, the mart equals the full aggregate of all of bronze iff every group is current |
| `Pipeline.MartIsBronzeIffNeverLate` | dbt/models/marts/mart_posts_by_lang_daily.sql:1-28 | and if no record's post ever changes, iff no build ever missed a late post |

## Left out

- Ingest.NoLoss: assumes an upstream clock that strictly increases (`Ingest.EqualStampsCanLose` shows why); a dead-lettered event is covered up to the dead-letter producer; its asynchronous delivery failure is only logged (ingest/producer.py:137-139), so nothing more holds.
- Jetstream.DelayBounds: uses reals; in floating point `2**attempt` overflows past attempt 1023.
- Mart.MartIffNeverLate: for posts that never change, and for dates away from the ends of the 16-bit calendar; `Mart.MartIffCurrent` is the condition without either restriction.
- An exception out of saving the cursor (ingest/main.py:114, ingest/main.py:121) has no action of its own: with the row unwritten it is the machine's Stop or Crash, with the row written its Checkpoint followed by Stop.
- Lifetime.RunService: all events of a process are yielded before they are consumed, with one clock reading per loop iteration, and callbacks only for messages in flight; scheduling inside asyncio is sequential because callbacks run only inside poll and flush.
- Pydantic's field checks and timestamp parsing are a predicate on JSON values; Avro decoding is a given result per record, a post or undecodable.
- A websocket frame that is not a JSON object, and what log lines, statistics intervals and the last event time report.
- Delivery of the archiver's own dead letters, and any failure of an append or a commit other than by dying.
- Rebalancing, compaction and transactional offset gaps: partitions are assigned for the whole run and their offsets are contiguous.
- The mart's `toDate` is an arbitrary function to 16-bit days, and 16-bit subtraction is taken to wrap; `max(day)` is read from the days FINAL shows, which are the days of all inserted rows.
- Background merges in ClickHouse: only the FINAL reading is modelled, across partitions.
- Records produced to a topic while an archiver run is reading it: the logs are fixed during a run, so the discarding of an end mark when new data arrives (dagster/bsky_dagster/assets/bronze.py:120) never matters, and a drained run is complete up to the logs it read.
- Ingest.EqualStampsCanLose: two adjacent accepted events; deliveries are counted by time_us and not by event, so for streams with equal stamps there is no if-and-only-if.
- The likes and follows archivers, landings and models: the same loops with other columns.
- Serialisation, topics, keys, schema registration, asset and dbt wiring, configuration, asset checks and dashboards: no state worth an invariant.
