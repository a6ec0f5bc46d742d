# Node monitor: a verified model

The node monitor watches the nodes of a cluster.  A probe on each node sends messages; the
collector turns them into storage records, and one thread writes these to a database that may be
down for hours.  This project models the path from the probe's output to the tables and proves
what the design relies on: nothing durable vanishes silently, retries change nothing, and every
shortcut on the way (coalescing, regrouping, dropping superseded files) leaves the tables as the
simple thing would have, or fails exactly when a stated condition fails.

`dafny verify dfyconfig.toml` checks the whole project.

## How the model is laid out

| files | models |
|---|---|
| `Upsert`, `Records`, `Codec`, `Partitions` | guarded upserts, storage records, row values and their JSON form, month partitions and retention |
| `Writer`, `WriterTheorems`, `Regrouping`, `DatabaseWriter` | a batch planned and applied in one transaction; the server's outcome is arbitrary |
| `Spool`, `SpoolTransparency` | the bounded spool directory, and what a batch is after a stay there |
| `Attempts`, `Delivery`, `DeliverySteps`, `BufferedSteps`, `BufferedState`, `Buffered` | the buffered writer, with books that number every submission and record its fate and every write tried |
| `Guarantees`, `Superseding`, `Replaying` | what those books mean to the caller; dropping superseded files |
| `RecordQueue`, `Coalescing`, `Windows`, `WriterThread`, `EndToEnd` | the queue and what coalescing does to the tables, the writer thread, and the whole way from a put to the tables |
| `Minutes`, `MinuteAggregator`, `Usage`, `UsageAggregator`, `NodePipeline` | streaming aggregation and the late-sample guards |
| `Emitter`, `ProcessTracker`, `StderrLog` | the probe's signal-safe output, its process table, the collector's stderr reader |

Objects the source updates in place (`BufferedWriter`, `Spool`, `RecordQueue`, `WriterThread`,
`Database`, the aggregators, `NodePipeline`, `ProcessTracker`, `StderrLog`, a partitioned table)
are classes; each method is proved against functions and predicates on values, and the theorems
are about those.  The server, the disk, other threads and the clock choose freely wherever they
can interfere, so an invariant kept by every method holds in every state any run can reach.
`Sealing` only keeps large predicates folded: `forall k :: Opens(k, X) ==> P` is `P`.

## Model

| member | source | states |
|---|---|---|
| `Guarantees.ExactlyOnce` | node_monitor/database/buffered.py:134-225 | in any state between submits the tables equal each committed submission applied once, in submission order, whatever was committed twice, late or unacknowledged; every acknowledged submission is among them |
| `Guarantees.NothingVanishes` | node_monitor/database/buffered.py:93-114 | every submission with a durable record is acknowledged, on the spool under its own name, in `corrupt/` and reported, or counted by an eviction, write-failure or not-kept notice; the counts in the notices are exact and each notice has been returned or is carried |
| `Guarantees.OutageProtocol` | node_monitor/database/buffered.py:275-315 | the calls made of the database are those of the tries; a submit failed exactly if its last try did; failed attempts, announcements and recoveries are what the submits add up to, step by step; two announcements have a recovery between them; the wait after the k-th failure is min(base * 2^(k-1), cap); replayed counts reported plus pending are the spooled batches acknowledged, and superseded ones those dropped |
| `Guarantees.HeadOfLine` | node_monitor/database/buffered.py:180-225 | no file's write fails more than `max_replay_attempts` times with the ping after it answered, and a waiting file's fewer times; a batch is given up for repeated failure only at that count, and as refused only if the server refused its records |
| `Guarantees.ReplayUntilDrained` | node_monitor/database/buffered.py:166-225 | a spool nobody adds to drains or runs out of time within (max - 1) rounds per file, or the last call was a ping the database did not answer |
| `Buffered.BufferedWriter.Submit` | node_monitor/database/buffered.py:93-114 | keeps the books; makes no call before the retry time; a submit whose last try failed opens or prolongs the outage and puts the next attempt off by its wait, one that drained the spool and wrote anything ends it, reporting what is due; a drained spool holds nothing replay can reach and the batch is delivered, or refused by the server and raised |
| `Buffered.BufferedWriter.ReplayAll` | node_monitor/database/buffered.py:166-225 | the commits made are those of the files `sent`, in order; only files superseded in the list are dropped; replay stops only at a write that found the database unavailable, with the ping answered as reported, and a stop while it answers uses up an attempt |
| `Buffered.BufferedWriter.Suspect` | node_monitor/database/buffered.py:191-212 | pings; the batch is given up exactly if the ping was answered and its answered failures have reached the limit, and otherwise replay stops, reporting the answer |
| `Buffered.BufferedWriter.Conclude` | node_monitor/database/buffered.py:189-224 | a written batch is delivered, a refused one given up, and only one that found the database unavailable is followed by a ping |
| `Buffered.BufferedWriter.Settle` | node_monitor/database/buffered.py:149-164 | what a fresh batch's outcome does to the outage, the retry time, the batch and the caller |
| `Buffered.BufferedWriter.QuarantineFresh` | node_monitor/database/buffered.py:242-255 | a refused fresh batch is settled: kept in `corrupt/` and reported, or reported as not kept |
| `Buffered.BufferedWriter.Store` | node_monitor/database/buffered.py:257-271 | the batch is settled as spooled or failed, with notices for every batch evicted for it |
| `Replaying.ReplayLeavesLive` | node_monitor/database/buffered.py:173-185 | a replay, whatever fails during it, leaves each live row for which the newest live-only file was committed and covers the older ones as replaying every waiting file would |
| `Superseding.ReplaySafeExactly` | node_monitor/database/buffered.py:173-185 | a replay that commits `sent` and drops superseded files is safe at a live key, for whatever was stored, if and only if the newest live-only file was committed and covers the older ones, or none speaks to the key |
| `Superseding.SupersededExactly` | node_monitor/database/buffered.py:227-233 | the same of dropping alone: safe if and only if the writer takes the newest file and it covers the older ones there, in times and columns |
| `Superseding.OtherNodeIsLost` | node_monitor/database/buffered.py:173-176 | two live-only files of different nodes for which the rule loses the older node's row |
| `Windows.CoalescedExactly` | node_monitor/collector/record_queue.py:38-45 | coalescing a window is exact for a live row, whatever was stored, if and only if the node's last record is no older than any and, for partial rows, those of its time alone set what all of them merged set |
| `Windows.BackwardsShows` | node_monitor/collector/record_queue.py:38-45 | a window whose last row of a node is older than an earlier one ends with the wrong time |
| `Windows.LateRowShows` | node_monitor/collector/record_queue.py:40-45 | partial rows at 5, 3 and 7 of which only the late one has a column, for which coalescing shows |
| `Windows.PartialWindowExactly` | node_monitor/database/writer.py:183-189 | the condition for partial rows, on the writes |
| `Windows.SnapshotWindowExactly` | node_monitor/collector/record_queue.py:38-39 | coalescing a node's snapshots is exact if and only if the last is no older than any |
| `WriterTheorems.Recommit` | node_monitor/database/writer.py:321-441 | committing a batch twice, at any two times, equals committing it once at the earlier, on every table |
| `WriterTheorems.OnceSuffices` | node_monitor/database/writer.py:386-441 | a log of commits with adjacent repeats leaves what the log without them does |
| `WriterTheorems.CommitAt` | node_monitor/database/writer.py:321-441 | what a commit does to each row, in closed form |
| `WriterTheorems.PlanRefinesRecords` | node_monitor/database/writer.py:331-374 | outside `nodes`, the regrouped batch equals its records written one by one |
| `WriterTheorems.PlanRefinesNodes` | node_monitor/database/writer.py:405-421 | in `nodes`, first_seen and last_seen do too |
| `Regrouping.PlanExact` | node_monitor/database/writer.py:386-441 | a live-only or durable-only batch equals one-by-one writing on every table |
| `Regrouping.MixedExactly` | node_monitor/database/writer.py:386-421 | a live row and hardware behind it of one node leave in `nodes` what writing them in order does, whatever was stored, if and only if the two writes commute: the newer sets all the older does and knows its columns, or, at one time, they agree |
| `Regrouping.MixedBatchDiffers` | node_monitor/database/writer.py:386-421 | two inputs for which they do not: one time and different boots, and later hardware behind a labelled row of a new node |
| `Windows.FirstSeenExactly` | node_monitor/database/writer.py:170-180 | coalescing a node's live rows keeps its first_seen if and only if the stored one or the last row's time is no later than the time of any of the rows |
| `Upsert.FoldIdempotent` | node_monitor/database/writer.py:130-189 | guarded upserts of one row, run twice, change nothing the second time |
| `DatabaseWriter.Database.Write` | node_monitor/database/writer.py:242-271 | all or nothing; an outcome never claims a commit that did not happen; malformed batches are refused; every stored row has a partition (`Valid`) |
| `DatabaseWriter.Database.Apply` | node_monitor/database/writer.py:386-403 | the statements in the source's order leave what the plan says |
| `DatabaseWriter.CommitHoused` | node_monitor/database/writer.py:378-384 | the months a plan asks for house every row its commit leaves |
| `Partitions.MonthsTile` | node_monitor/database/maintenance.py:46-56 | every instant lies in exactly one UTC month |
| `Partitions.NamesInjective` | node_monitor/database/maintenance.py:58-61 | partition names are injective |
| `Partitions.ParseNameOfName` | node_monitor/database/maintenance.py:126-153 | retention reads back the month a partition was made for |
| `Partitions.DueMeansRefused` | node_monitor/database/maintenance.py:139-153 | a month is dropped exactly when the writer refuses every row it can hold |
| `Partitions.RefusedForever` | node_monitor/database/writer.py:326-344 | and goes on refusing them |
| `Partitions.Parent.ApplyRetention` | node_monitor/database/maintenance.py:126-168 | raises if and only if an attached name matches the pattern with a month that does not exist; drops the due months it can lock and nothing else; foreign names are left alone |
| `Partitions.UndatedNames` | node_monitor/database/maintenance.py:146-151 | such names: month 13, and year 0000 |
| `Spooling.EvictionFair` | node_monitor/database/spool.py:130-152 | before a dropped file every deletable file that comes first (live-only before durable, old before new) was dropped too |
| `Spooling.EvictTakesPrefix` | node_monitor/database/spool.py:141-152 | eviction takes a prefix of that order and stops as soon as the batch fits |
| `Spooling.EvictionMakesRoom` | node_monitor/database/spool.py:141-152 | if deletions succeed the batch fits: the bound on the spool's size |
| `Spooling.Spool.Append` | node_monitor/database/spool.py:154-187 | the directory afterwards: evictions, the batch behind the rest, counts as reported |
| `Spooling.Spool.Read` | node_monitor/database/spool.py:270-288 | the records stored, or nothing and the file moved to `corrupt/` or marked, and reported once |
| `Codec.DecodeEncode` | node_monitor/database/codec.py:62-82 | decoding undoes encoding, up to non-finite floats and tuples, if and only if no dict imitates a datetime |
| `Codec.TaggedTextIsMisread` | node_monitor/database/codec.py:75-79 | such a dict comes back as a datetime |
| `SpoolTransparency.BatchComesBack` | node_monitor/database/codec.py:85-91 | the same of a whole batch |
| `SpoolTransparency.SpoolIsTransparent` | node_monitor/database/spool.py:270-288 | the batch read back is taken, loses to retention and writes exactly as the one put on the spool |
| `SpoolTransparency.SpoiledExactly` | node_monitor/database/writer.py:351-355 | of the records the writer takes, the spool spoils exactly live rows with a non-finite session_state |
| `RecordQueues.RecordQueue.Put` | node_monitor/collector/record_queue.py:31-48 | the records wait, live ones coalesced; a closed queue takes none |
| `RecordQueues.RecordQueue.Take` | node_monitor/collector/record_queue.py:50-63 | durable records in put order, then each node's newest snapshot and merged row |
| `Coalescing.CoalescingRefines` | node_monitor/collector/record_queue.py:31-63 | if no node's live times go back, rounds leave the live tables as every record written alone |
| `WriterThreads.WriterThread.HandedOver` | node_monitor/collector/writer_thread.py:73-86 | what was submitted holds the durable records taken, each once and in put order, no batch mixing them with live state |
| `WriterThreads.WriterThread.Run` | node_monitor/collector/writer_thread.py:56-71 | against any puts and closes by other threads, at exit everything accepted has been taken and passed on |
| `WriterThreads.WriterThread.Drain` | node_monitor/collector/writer_thread.py:63-66 | makes at most three more rounds, fewer only if no event is left |
| `WriterThreads.EventsKeepApart` | node_monitor/database/buffered.py:319-333 | the events of one submit have different natural keys |
| `EndToEnd.QueueToTables` | node_monitor/collector/writer_thread.py:56-95 | once what speaks to a row is delivered, the row is as if every record taken from the queue, and every event, had been written alone, in order |
| `Emitting.SignalSafe` | node_monitor/probe/probe.py:962-1090 | in every interleaving of main thread, watchdog and handler the output is whole lines numbered 0, 1, 2, ..., ended fragments and at most one unfinished tail; at most one ordinary line completes after a signal is recorded |
| `Emitting.NothingAfterReport` | node_monitor/probe/probe.py:1031-1042 | nothing follows a signal report |
| `Emitting.ReportAlone` | node_monitor/probe/probe.py:1031-1042 | once a report is begun only the rest of it follows |
| `Emitting.TailIsHeld` | node_monitor/probe/probe.py:996-1009 | while the process runs, an unfinished line belongs to the thread that holds the lock |
| `Emitting.EncodedChunks` | node_monitor/probe/probe.py:943-959 | the chunks concatenate to the encoding, none larger than the limit unless one piece is, none split needlessly |
| `MinuteAggregation.MinuteAggregator.DeltasAddUp` | node_monitor/pipeline/node_metrics.py:102-174 | per interface, what all minutes accumulated is the sum over consecutive same-session samples with time passed and no reset |
| `MinuteAggregation.RowSensible` | node_monitor/pipeline/node_metrics.py:176-225 | an emitted row's rates are not negative and CPU shares add up to 100 |
| `Minutes.OfferKept` | node_monitor/pipeline/node_metrics.py:84-100 | the pending censuses are those of the ten largest unclosed minutes |
| `Usage.IntervalIsTally` | node_monitor/pipeline/usage.py:76-93 | folding census by census equals one tally over all sightings |
| `Usage.UserRowsAddUp` | node_monitor/pipeline/usage.py:169-188 | users' totals, by_activity and by_category_dormancy cells add up to the node's |
| `Usage.IntervalMarginals` | node_monitor/pipeline/usage.py:136-157 | by_category and by_dormancy are the marginals of by_category_dormancy |
| `Usage.GpuIsMeasured` | node_monitor/pipeline/usage.py:136-157 | GPU memory is summed over exactly the censuses that measured it |
| `Usage.GpuWithinMaximum` | node_monitor/pipeline/usage.py:76-93 | and that sum is at most their number times the largest |
| `UsageAggregation.AveragesWithinMaxima` | node_monitor/pipeline/usage.py:95-122 | no average exceeds its maximum; GPU columns are there exactly if a census measured |
| `UsageAggregation.RowsTold` | node_monitor/pipeline/usage.py:221-237 | the emitted user rows add up to the emitted node row, totals and each by_activity and by_category_dormancy cell, and every row is proper |
| `UsageAggregation.UsageAggregator.AddCensus` | node_monitor/pipeline/usage.py:209-219 | the open interval is the tally of its censuses; a later one closes it and emits its rows |
| `NodePipelines.NodePipeline.NothingLost` | node_monitor/pipeline/node_pipeline.py:110-159 | over any run, sample_counts of emitted rows plus the open one plus late events equal the messages received |
| `NodePipelines.NodePipeline.KeysIncrease` | node_monitor/pipeline/node_pipeline.py:60-76 | emitted minutes and interval starts strictly increase, no user twice in an interval, and the rows make sense |
| `NodePipelines.NodePipeline.OnFullCensus` | node_monitor/pipeline/node_pipeline.py:138-159 | a census that is not late is counted, shown live and noted for its minute; a late one only reported |
| `NodePipelines.NodePipeline.Flush` | node_monitor/pipeline/node_pipeline.py:171-172 | both open rows are emitted and booked |
| `ProcessTracking.CpuTelescopes` | node_monitor/probe/probe.py:599-633 | reported CPU adds up to last minus first ticks while a process stays present |
| `ProcessTracking.NeverActive` | node_monitor/probe/probe.py:621-631 | the lower-bound flag means never active and present from the first update |
| `ProcessTracking.ProcessTracker.Observe` | node_monitor/probe/probe.py:599-633 | each report is what the process's own history says |
| `ProcessTracking.NextDueIsNextSlot` | node_monitor/probe/probe.py:1304-1309 | for a positive interval the next due time is the first slot later than now |
| `StderrLogs.StderrLog.Feed` | node_monitor/collector/session.py:272-317 | events and tail depend on the bytes, not on how they were cut into chunks |

## Findings

Properties that do not hold as one would state them, each with an input and its condition.

- Dropping superseded live-only files loses a node's last live state when the newest file does
  not cover it (`Superseding.OtherNodeIsLost`; docs/m1c-followups.md:51 knows of it), and also
  when the newest file, for which the older ones were dropped unwritten, then turns out
  unreadable or refused; `Superseding.ReplaySafeExactly` is the exact condition.
- Coalescing a window shows in a live row if the node's last record is older than an earlier one
  (`Windows.BackwardsShows`), and for partial rows also if one that comes late sets a column
  otherwise than those of the last's time (`Windows.LateRowShows`); `Windows.CoalescedExactly` is
  the exact condition.  That no live time goes back is enough (`Coalescing.CoalescingRefines`).
- Coalescing moves a node's first_seen to the last row's time unless an earlier time is stored
  or no row is earlier (`Windows.FirstSeenExactly`).
- A batch with hardware behind live state of the same node may leave another boot_id in `nodes`
  than writing its records in order, or no label (`Regrouping.MixedBatchDiffers`);
  `Regrouping.MixedExactly` is the exact condition for one record of each.  The writer thread
  never makes such a batch (`WriterThreads.WriterThread.HandedOver`).
- A row value that is exactly `{"$dt": <string>}` comes back from the spool as a datetime or makes
  the whole file unreadable (`Codec.TaggedTextIsMisread`).
- A live row whose session_state is a non-finite float passes the writer's check when fresh and
  fails it after a stay on the spool (`SpoolTransparency.SpoiledExactly`).
- `apply_retention` raises, and drops nothing more, exactly if an attached partition's name matches
  the pattern with a month that does not exist, such as `_y2024m13` or `_y0000m01`
  (`Partitions.Parent.ApplyRetention`, `Partitions.UndatedNames`).
- Exactly-once needs neither a clock that advances nor removals that succeed: a batch repeated
  under an earlier clock counts as committed at the earlier of the two times.

## Left out

- Spooling.Spool.Later: the wall clock that stamps spool files does not step back; with the
  sequence number it makes names increase.  docs/m1b-followups.md:81 records the limit.
- Spooling.Spool.Read: gives back the batch as it was put; that what JSON gives back is written,
  taken and counted the same is `SpoolTransparency.SpoolIsTransparent`, for unambiguous rows.
- Spooling.Spool.MakeRoom: a loop's deletions take effect together at its end.
- SpoolTransparency.DecodeRecord: a line whose row is no object counts as unreadable.
- Codec.Clean: unpaired surrogates and NULs in strings (`_clean_str`) and non-string keys are not
  modelled; the ISO round trip of datetimes is a hypothesis (`RoundTrips`).
- Writer.Complete: besides what `_plan` checks it holds the column types the schema requires, so a
  record the server would refuse is refused with the plan; a naive `now` is not modelled.
- Column lists and retention are parameters.
- The database: all tables are one map from table-tagged primary key to row; a node's snapshot row and
  its process rows are one entry; `nodes.first_seen` has a map of its own; collection_event ids
  are not modelled.
- EndToEnd.QueueToTables: not about `nodes`, whose first_seen, label and boot_id coalescing can move
  (see Findings).
- Superseding.ReplaySafeExactly: of files that hold live or durable records, not both, and say one
  thing to a key, as the writer thread makes them.
- Partitions.Parent.ApplyRetention: names are visited in any order, where the source sorts them, which
  matters only for what a run that raises has dropped before; digits are ASCII.
- Regrouping.MixedExactly: of one record of each kind.
- RecordQueues.RecordQueue.Put: a live record has a node, as every pipeline record does.
- WriterThreads.WriterThread.Upkeep: its events are arbitrary; its schedule and heartbeat are not
  modelled.
- MinuteAggregation.IsRow: `lustre_md_rates` and the columns copied from the minute's last message
  (memory, load, sockets, probe memory, clock offset) are left out.
- MinuteAggregation.RowSensible: percentages and rates are exact reals, without `round`.
- UsageAggregation.UserRowsOf: rows are in no particular order; the source sorts them by name.
- NodePipelines.NodePipeline.OnEvent: rows are typed, without system, node, label and the columns
  copied from the message; hello and error messages, which emit a row or event of their own and
  touch no aggregate, are not modelled.
- ProcessTracking.ProcessTracker.Observe: an update does not list one process twice; a missing
  interval is 0; reports are separate values, not fields added to the row.
- Emitting.SignalSafe: output is pieces of lines, not bytes; a write may stop after any piece.
- File modes, fsync, directory re-creation, and the contents of `corrupt/` from earlier processes.
- Connection handling, SQL text and psycopg's error classes: an outcome is written, unavailable or
  rejected.
- ssh, sessions, the fleet loop, the CLI, configuration, redaction and classification rules,
  `/proc` readers, GPU queries, lock files, soak reports and upkeep scheduling: input and output,
  foreign calls, or easy members.
