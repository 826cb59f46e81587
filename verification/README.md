# Loadsmith, modelled and proved

Loadsmith moves data from a source through an optional parser to a destination
and on to a sink, each a separate process, under one core. This project models
the protocols by which it promises not to lose a row, not to load one twice
into a finished load, and not to run twice at once, and a few of its
self-contained algorithms, and proves properties of them.

`dafny verify dfyconfig.toml` checks everything.

## How it is laid out

| file | what it models |
|---|---|
| TieSafeCursor, Source | watermarks, checkpoints and the data loop of a source |
| SinkLedger, SinkSupervisor, Sink | the delivery ledger, the sink stage over its respawns, the delivery loop of a sink |
| StateSupervisor, Resume | the durability-gated watermark and the resume record; how the next attempt takes it up, and the retry loop |
| Pipeline, PipelineSteps, GapFree | all of these in one world, over any number of runs: the steps and the invariant, its preservation, the theorems |
| Renumbering, Histories | file numbers taken up again by later runs: exactly when no row is lost; histories, step by step from the first run on |
| CommitPoint | when the destination may see the end of the stream |
| ParserFeed, Pump, Destination, ExactLoad | the parts of a run with a parser, and the whole of it |
| Lease | the lease lock over a compare-and-swap store |
| FlowControl | credit flow control |
| Schema, Fingerprint, Fnv | the schema mapping and the schema fingerprint |
| Calendar, Timestamps | civil dates and their texts |
| EditDistance | the suggestion for a mistyped key |
| Template, Document, Providers | templates, the static check, secret resolution |
| Mask | redaction |
| Wrappers, Text | containers and bounds; the order of texts, trimming, decimal numbers |

Protocols are step systems: a state, the steps that may be taken, and runs as
sequences of steps in any order. Code that works in place is a class or a loop
proved against a specification function, and the step systems use those
functions.

## What the theorems assume

Gap-free resume (`GapFree`), of the world around the core:

- rows come in the order of a cursor that is never null, and rows added later
  are strictly greater than the ones before;
- files announced with a range hold the batches right after the previous
  file's; a `committed` names only batches whose files were announced (proved
  of the destination's loop in `Destination`), and after a success it covers
  every batch;
- a sink reports success only after its input ended (proved of the sink's loop
  in `Sink`);
- at most one run is live at a time (proved in `Lease`).

Two more conditions are part of the theorems (`Pipeline.Safe`), because the code
does not meet its promise without them:

- A run with a sink that continues no recorded run numbers its files from 1
  again. Each row at or below the watermark has to be held without the objects
  of that run's id. This is so whenever no document was stored under the id. A
  retry of `run_pipeline` starts with the run id of its process, and if another
  process continued and finished that run meanwhile it is not so:
  `Histories.ReusedRunIdLosesARow` is such a history, and
  `Renumbering.ReusedRunIdIsSafeIff` says exactly when such a start is safe.
  Runs without a sink stage nothing and need no condition
  (`Histories.ARetryWithoutASink`).
- A run that failed although its sink delivered everything stores the watermark
  of the destination's commits, while its record's `next_object_seq` counts the
  delivered prefix, which a file without a range stops. The rows at or below the
  watermark have to lie in the files of that prefix. This is so whenever every
  file carries its range (`GapFree.OrdinaryStepsAreSafe`).
  `Histories.RangelessFailureLosesARow` is a history in which it is not, and
  `Renumbering.DeliveredFailureIsSafeIff` says that this is exact for a run
  whose rows are in no other object.

That every file a continuing run may stage again held only rows above the
watermark is not what a chain of runs keeps: a file delivered behind a gap may
hold a row that a later attempt, staging it again under a smaller number,
passes (`Histories.EarlierAttemptLeavesAPassedRow`). What an attempt left itself
does lie above (`Renumbering.OwnFilesAreAbove`), so the claim holds exactly if
it holds of what earlier attempts left (`Renumbering.RenumberedFilesAreAboveIff`).
And what it is for always holds: each row at or below the watermark stays at the
target whatever the next run writes (`Renumbering.NextRunStagesOverNothing`,
`GapFree.PassedRowsStay`).

The lease lock: every write gets a new version (RFC 9110, sections 13.1.1 and
13.1.2, over entity tags), and an operation in flight at a crash has landed or
never does. `Lease.MutualExclusion` also takes the timing it states.

Where code and documentation differ the code is modelled: a sink that asks for
a resend while the run is halting is handed its pending objects again, although
the comment says nothing new is sent; a map type whose entries are no pair
hashes like the beginning of one whose entries are, so two different schemas
may share a fingerprint (`Fingerprint.OddMapsCollide`); a value that begins or
ends with a `*`, or holds `***`, can come out of masking again
(`Mask.AlwaysGoesIffMaskable`); `max_inflight_batches` of 2^64 - 1 makes
the grant's sum wrap (in a release build) and stops the source after two
batches, although any ceiling is accepted.

## Model

| member | source | states |
|---|---|---|
| TieSafeCursor.Cursor.Batch | crates/loadsmith-plugin-sdk/src/watermark.rs:29-42 | Fed batch by batch (empty ones included), the tracker equals a specification on the whole stream read so far, so how the stream was cut cannot matter |
| TieSafeCursor.Cursor.Reported | crates/loadsmith-plugin-sdk/src/watermark.rs:44-53 | What is reported is the last value once the stream ended, and before that the latest value that a different one follows |
| TieSafeCursor.CompleteIsGreatestBelow | crates/loadsmith-plugin-sdk/src/watermark.rs:3-12 | On an ordered stream the reported value is the greatest one strictly below the last value read, and there is none exactly when all values are equal |
| TieSafeCursor.WatermarkIsTieSafe | crates/loadsmith-plugin-sdk/src/watermark.rs:3-12 | However an ordered stream goes on, every row at or below a reported value was already read: no tie is skipped by a resume |
| Source.Reported.Report | crates/loadsmith-plugin-sdk/src/source.rs:162-181 | A checkpoint is sent exactly when the newest watermark or the newest token changed, and it carries the newest of each |
| Source.DriveSource | crates/loadsmith-plugin-sdk/src/source.rs:286-355 | The data loop hands over every batch up to the first that is not granted or not taken, reports each one handed over, and writes the end marker exactly when the stream ended without an error, every batch was taken and the writer ended well |
| Source.LastCheckpointIsNewest | crates/loadsmith-plugin-sdk/src/source.rs:302-337 | After any number of batches the last checkpoint carries the newest watermark and token said so far; ordinals strictly increase mid-run |
| Source.ClosingReportIsSent | crates/loadsmith-plugin-sdk/src/source.rs:329-337 | After a clean end the last checkpoint carries the closing watermark and the closing token, or the newest earlier one where the source leaves it out; what the end adds is at the last batch, and only that ordinal may repeat |
| SinkLedger.Ledger.Announce | crates/loadsmith-core/src/sink_supervisor.rs:288-293 | An announced file is recorded with its range and emitted unless it is already known |
| SinkLedger.Ledger.Acknowledge | crates/loadsmith-core/src/sink_supervisor.rs:296-314 | An acknowledgement recomputes the prefix and publishes it exactly when it advanced; published values strictly increase |
| SinkLedger.Ledger.NotYetDelivered | crates/loadsmith-core/src/sink_supervisor.rs:246-250 | The pending objects are those emitted and not acknowledged, in announcement order |
| SinkLedger.PendingKeepsOrder | crates/loadsmith-core/src/sink_supervisor.rs:246-250 | Two pending objects stand in the order in which they were announced |
| SinkLedger.LongestRunIsUnique | crates/loadsmith-core/src/sink_supervisor.rs:265-307 | The prefix is the one longest leading run of acknowledged files whose ranges leave no gap: its length and the highest batch it reaches |
| SinkLedger.NoBatchIsSkipped | crates/loadsmith-core/src/sink_supervisor.rs:274-307 | Every batch from 1 to the published value is in one of the acknowledged files of that run |
| SinkLedger.PrefixNeverMovesBack | crates/loadsmith-core/src/sink_supervisor.rs:296-314 | More files announced and more acknowledged never shorten the prefix |
| SinkLedger.AcknowledgementOrderIsIrrelevant | crates/loadsmith-core/src/sink_supervisor.rs:296-314 | After acknowledgements in any order the published value is that of the set acknowledged |
| SinkLedger.InterleavingIsIrrelevant | crates/loadsmith-core/src/sink_supervisor.rs:284-314 | However announcements and acknowledgements interleave, the published value is the prefix of all announcements under the set acknowledged |
| StateSupervisor.ReceiveAll | crates/loadsmith-core/src/state_supervisor.rs:92-143 | The event loop, over any interleaving of checkpoints, commits and delivered prefixes, stores what the event-by-event specification stores |
| StateSupervisor.FinalFlush | crates/loadsmith-core/src/state_supervisor.rs:145-195 | The final flush drains the late prefixes, falls back to the delivered prefix when the sink did not deliver everything, and clears or writes the resume record |
| StateSupervisor.Supervise | crates/loadsmith-core/src/state_supervisor.rs:86-200 | The document at the end of a run, as loop and flush together |
| StateSupervisor.SafeBatch | crates/loadsmith-core/src/state_supervisor.rs:236-240 | The checkpoint chosen is the one of the highest batch at or below the frontier; none only if every checkpoint is above it |
| StateSupervisor.FinalFlushIsExact | crates/loadsmith-core/src/state_supervisor.rs:148-195 | With checkpoint_interval 0, for success and failure and at any frontier: the document stored is that of the newest checkpoint received at or below the frontier; after a success it has no record, after a failure the record holds that checkpoint's token, the run's id, start time and config hash, and the number after the files delivered; without such a checkpoint the watermark stays |
| StateSupervisor.FailedRunIsContinuable | crates/loadsmith-core/src/state_supervisor.rs:148-220 | Whatever the throttle: a failed run that stored its newest checkpoint at the end left that one's cursor and, exactly when it has an identity and a sink or a token, a record with that token, its identity and the number after the files delivered |
| StateSupervisor.LoopStoresOneMoment | crates/loadsmith-core/src/state_supervisor.rs:124-143 | Whatever the loop stored belongs to one moment of the run: cursor, token and delivered files of the newest checkpoint it could stand by then; and what it may stand by is always less than an interval ahead of what is stored |
| StateSupervisor.SuccessClearsTheRecordIff | crates/loadsmith-core/src/state_supervisor.rs:169-195 | A run that succeeded leaves a record only if it wrote one on the way, had no prior document, and stands by no checkpoint at its end |
| StateSupervisor.ThrottledFlushMayStopShort | crates/loadsmith-core/src/state_supervisor.rs:180-187 | With a throttle it may stop short, whatever the interval and the values: a second checkpoint of the batch stored last replaces the entry but is not stored |
| StateSupervisor.FinalWatermarkIsNewestIff | crates/loadsmith-core/src/state_supervisor.rs:176-195 | For every run, throttle, gate and outcome: the watermark stored last is that of the newest checkpoint the run may stand by, if and only if its batch lies beyond the one stored last, or the run succeeded with a record to clear, or the value was stored already |
| StateSupervisor.LoopRemembers | crates/loadsmith-core/src/state_supervisor.rs:104-122 | Whatever the throttle stored on the way, the loop knows at its end the newest checkpoint at or below every frontier, the highest commit and the furthest prefix |
| Resume.RecordedRunIsContinuedIff | crates/loadsmith-core/src/runner.rs:213-232 | A recorded failed run is continued exactly by the same run, or by one that may resume an unchanged pipeline: with its id, its start time and its token; any other run is new, without a token; the watermark goes to both |
| Resume.FailureIsTakenUp | crates/loadsmith-core/src/runner.rs:298-319 | From any failed run that stored its newest checkpoint to the next attempt: its source gets exactly that cursor and token, id and start time stay, and its files are numbered on after those delivered exactly if the source goes on where it stopped |
| Resume.ChainKeepsOneRun | crates/loadsmith-core/src/runner.rs:668-690 | Over any chain of failed attempts from an empty state the record names the first attempt that left something, and its next file's number is one more than all the files delivered on the way |
| Resume.RunPipeline | crates/loadsmith-core/src/runner.rs:158-196 | Attempts are made up to the allowed number and no further than the first that is not to be retried; the result is the last one's; the waits double only over attempts in a row that wrote nothing |
| PipelineSteps.StepKeeps | crates/loadsmith-core/src/state_supervisor.rs:86-220 | Every step of source, destination, sink, ledger and supervisor, every failure, crash and new run that meets its condition keeps the invariant: documents, checkpoints, commits, prefixes, objects and file numbers agree |
| PipelineSteps.StartKeeps | crates/loadsmith-core/src/runner.rs:213-235 | A new run starts from the stored document: which failed run it continues and where its file numbers go on keep the invariant |
| PipelineSteps.StoreKeepsRows | crates/loadsmith-core/src/state_supervisor.rs:204-220 | Storing a checkpoint whose rows are held keeps every row at or below the new watermark at the target, in an object numbered below the record's next file |
| PipelineSteps.FailKeeps | crates/loadsmith-core/src/state_supervisor.rs:148-195 | The flush of a failed run keeps the invariant, whatever part of the files was delivered, with or without ranges, as long as a full delivery covers the watermark |
| PipelineSteps.SucceedKeeps | crates/loadsmith-core/src/state_supervisor.rs:169-195 | The flush of a successful run keeps the invariant and drops the resume record |
| GapFree.NoGapEver | crates/loadsmith-core/src/state_supervisor.rs:86-220 | Over any number of runs, with crashes and failures at any step and any interleaving, each row is at the target for good or strictly above the stored watermark |
| GapFree.WatermarkNeverDecreases | crates/loadsmith-core/src/state_supervisor.rs:128-195 | No step lowers the stored watermark |
| GapFree.WatermarkOnlyRises | crates/loadsmith-core/src/state_supervisor.rs:128-195 | So over any history the watermark only rises |
| GapFree.SuccessLeavesNoRowMissing | crates/loadsmith-core/src/state_supervisor.rs:169-195 | A run that succeeds leaves every row of its snapshot at the target |
| GapFree.FirstSuccessLeavesNoRowMissing | crates/loadsmith-core/src/state_supervisor.rs:169-195 | After any history of failed and crashed runs the first successful one leaves no row of its snapshot missing |
| GapFree.PassedRowsStay | crates/loadsmith-core/src/state_supervisor.rs:86-220 | A row the watermark passed is at the target from then on, whatever runs, fails, crashes and starts again |
| GapFree.OrdinaryStepsAreSafe | crates/loadsmith-core/src/runner.rs:301-310 | The two conditions hold by themselves where runs that start afresh have an id of their own and files carry their ranges |
| Renumbering.NextRunStagesOverNothing | crates/loadsmith-core/src/runner.rs:668-690 | Whatever run with a sink starts next, each row at or below the watermark is in an object that run never names |
| Renumbering.RunWritesOnlyNamed | crates/loadsmith-core/src/runner.rs:668-690 | Over all its steps a run writes only objects of its id numbered from its first file on |
| Renumbering.KeepsIffElsewhere | crates/loadsmith-core/src/runner.rs:668-690 | Whatever a starting run does, every row at or below the watermark stays at the target, if and only if each of them is somewhere the run does not write |
| Renumbering.ReusedRunIdIsSafeIff | crates/loadsmith-core/src/runner.rs:301-310 | Starting under any id keeps those rows from then on if and only if a recorded run is continued or no such row is only in objects of that id |
| Renumbering.DeliveredFailureIsSafeIff | crates/loadsmith-core/src/state_supervisor.rs:148-187 | After a failure with everything delivered, what continues keeps every row at or below the new watermark if the delivered prefix holds them, and only then if they are in no other object |
| Renumbering.OwnFilesAreAbove | crates/loadsmith-core/src/state_supervisor.rs:204-220 | When an attempt ends, what it left itself at or beyond the recorded next file holds only rows above the watermark |
| Renumbering.RenumberedFilesAreAboveIff | crates/loadsmith-core/src/state_supervisor.rs:204-220 | After any history: every object a successor may replace holds only rows above the watermark if and only if those left by earlier attempts do |
| Histories.AnOrdinaryHistory | crates/loadsmith-core/src/state_supervisor.rs:86-200 | Histories that end well exist: for any table, a run that lands every row and stores the last watermark |
| Histories.ARetryWithoutASink | crates/loadsmith-core/src/runner.rs:158-196 | Without a sink an attempt that stored its watermark and failed is retried under its own id, within the theorems |
| Histories.ReusedRunIdLosesARow | crates/loadsmith-core/src/runner.rs:158-235 | A failed attempt, another process that continues and finishes the run, and the retry under the old id: its upload replaces rows it will not read, for any table and row |
| Histories.RangelessFailureLosesARow | crates/loadsmith-core/src/state_supervisor.rs:148-187 | A fully delivered failure of a file without a range, and the attempt after it: its upload replaces rows it will not read, for any table and row |
| Histories.EarlierAttemptLeavesAPassedRow | crates/loadsmith-core/src/state_supervisor.rs:204-220 | Two attempts, each step within the conditions, after which a file the third may replace holds a row at the watermark |
| Sink.DriveSink | crates/loadsmith-plugin-sdk/src/sink.rs:118-184 | Every object handed over is delivered and acknowledged in that order; success is reported exactly when the input was closed and every delivery and the end succeeded |
| SinkSupervisor.StepKeeps | crates/loadsmith-core/src/sink_supervisor.rs:93-235 | Every event of a sink stage keeps log, ledger and restart count consistent |
| SinkSupervisor.NeverResentNeverMoreThanSix | crates/loadsmith-core/src/sink_supervisor.rs:329-442 | Over all respawns an acknowledged object is never sent again, and at most six instances run |
| SinkSupervisor.HowTheStageEnds | crates/loadsmith-core/src/sink_supervisor.rs:172-235 | Over every run: the stage fails exactly when an instance's set-up failed, or the sixth instance failed and no halt had come; it is halted exactly by a halt or by a failure after one, done exactly at a success; a new instance is due exactly at first and after every other failure |
| SinkSupervisor.FailureKeepsTheLedger | crates/loadsmith-core/src/sink_supervisor.rs:148-235 | After a failure that does not end the stage nothing announced or acknowledged is lost, and the next instance may be sent everything pending, in order |
| SinkSupervisor.ResendMaySendAll | crates/loadsmith-core/src/sink_supervisor.rs:413-423 | A sink that asks while its stdin is open may be sent everything pending, in order, by the same instance |
| SinkSupervisor.SixInstancesRun | crates/loadsmith-core/src/sink_supervisor.rs:52 | The bound is reached: five failures bring up a sixth instance, whose failure ends the stage |
| SinkSupervisor.RunHears | crates/loadsmith-core/src/sink_supervisor.rs:237-255 | Over any number of respawns the ledger holds the files in the order they first came, unless acknowledged before, and exactly what was acknowledged; the end of the files and a halt are remembered |
| SinkSupervisor.NothingIsForgotten | crates/loadsmith-core/src/sink_supervisor.rs:329-442 | Whenever a sink runs and is not being halted, whatever was announced and is not acknowledged was sent to that very instance |
| SinkSupervisor.HaltingSendsNothingNew | crates/loadsmith-core/src/sink_supervisor.rs:325-400 | A sink that is being halted is sent nothing, unless it asks for a resend, and is not respawned |
| SinkSupervisor.LedgerOnlyGrows | crates/loadsmith-core/src/sink_supervisor.rs:237-255 | What was announced and what was acknowledged only grows, across instances |
| SinkSupervisor.RespawnResendsInOrder | crates/loadsmith-core/src/sink_supervisor.rs:148-170 | Over any run: where an instance comes up or asks for it, everything announced and not acknowledged by then is sent first, in announcement order, all of it unless the instance fails; between two such points no object is sent before one announced earlier, nor twice |
| SinkSupervisor.DoneIsCompleteIffStdinClosed | crates/loadsmith-core/src/sink_supervisor.rs:344-352 | At a reported success everything announced was acknowledged and no more can come exactly when the sink's stdin had been closed |
| SinkSupervisor.DoneIsComplete | crates/loadsmith-core/src/sink_supervisor.rs:93-235 | With sinks that report success only after their input ended, a stage that ends well delivered every announced object |
| SinkSupervisor.EarlySuccessIsBelieved | crates/loadsmith-core/src/sink_supervisor.rs:404-412 | The condition is needed: a sink that reports success early is believed |
| CommitPoint.SuperviseDataPhase | crates/loadsmith-core/src/runner.rs:1200-1476 | The loop on its variables does what the event-by-event specification does, for every event sequence |
| CommitPoint.PhaseIsItsHistory | crates/loadsmith-core/src/runner.rs:1229-1476 | For every start and every event sequence, by a definition on the events heard alone: the phase has failed exactly when it heard a halt, a deadline, a broken stream, a failing, violating or vanishing plugin, a success out of turn or a failed marker, or when the output was closed at the commit; it ended well exactly with the marker written and the destination's success |
| CommitPoint.BadEventEndsThePhase | crates/loadsmith-core/src/runner.rs:1289-1294 | Each such event ends the phase at once: it has failed, and no marker was started or written that was not before |
| CommitPoint.RefusalsAreTold | crates/loadsmith-core/src/runner.rs:1289-1440 | And what the phase knows of each plugin's failure is exactly what it heard of it |
| CommitPoint.MarkerOnlyInItsTurn | crates/loadsmith-core/src/runner.rs:1251-1291 | The end marker is started at most once, never after a failure, and only after the stream ended cleanly and its producer succeeded; with a parser, whose input was ended only after the raw source succeeded and no file can come |
| CommitPoint.SuccessMeansCommitted | crates/loadsmith-core/src/runner.rs:1292-1420 | A phase ends without a failure only with the marker written and the destination's success counted after the marker was started, and a parser's success after its input was ended |
| CommitPoint.FailureIsFinal | crates/loadsmith-core/src/runner.rs:1292-1294 | Once the events so far made the phase fail, no later events change anything: no marker and no success |
| CommitPoint.AnOrdinaryRunSucceeds | crates/loadsmith-core/src/runner.rs:1200-1476 | A phase without a parser does end well |
| ParserFeed.Feed.HandleFile | crates/loadsmith-core/src/parser_feed.rs:88-115 | A path is handed to the parser exactly at its first announcement |
| ParserFeed.Inbox.Take | crates/loadsmith-plugin-sdk/src/parser.rs:127-146 | What is queued and done is the distinct paths read, in order |
| ParserFeed.DriveParser | crates/loadsmith-plugin-sdk/src/parser.rs:281-357 | The parser succeeds exactly when every file opens, fits the stream's columns and can be read and every write succeeds; then every distinct path was parsed once, in order of arrival, and nothing else was written; otherwise the reason it gives is there |
| ParserFeed.Check | crates/loadsmith-plugin-sdk/src/parser.rs:201-230 | A file fits exactly when it has the stream's columns, names and types in order, and is nullable only where the stream is |
| ParserFeed.DistinctIsDistinct | crates/loadsmith-core/src/parser_feed.rs:88-115 | Paths are handed over without repeats, so the parser's own check never drops one |
| ParserFeed.FirstAnnouncedFirst | crates/loadsmith-core/src/parser_feed.rs:38-47 | Files keep the order of their first announcements |
| Pump.CopyStream | crates/loadsmith-core/src/pump.rs:155-243 | Every batch is read; a prefix reaches the destination, all of it when its stream is still open and the run was not aborted; clean means the producer's marker was read; the last progress report is the total |
| Destination.DriveDestination | crates/loadsmith-plugin-sdk/src/destination.rs:213-286 | The destination finalizes exactly when the end marker was read and everything before it was written, in order; a truncated stream never finalizes |
| Destination.CommittedOnlyAfterAnnounced | crates/loadsmith-plugin-sdk/src/destination.rs:241-286 | With a plugin that calls a batch durable only once its file is ready, every batch a committed message covers is in a file announced before it |
| Destination.CommitsIncrease | crates/loadsmith-plugin-sdk/src/destination.rs:253-282 | Commits strictly increase over a whole run, the closing one included |
| Destination.SuccessCommitsEverything | crates/loadsmith-plugin-sdk/src/destination.rs:277-282 | After a success the last commit covers every batch |
| ExactLoad.StepKeeps | crates/loadsmith-core/src/runner.rs:1200-1476 | Every step of raw source, feed, core, parser, pump and destination keeps their queues, streams and counts in agreement |
| ExactLoad.FinalizedIsExact | crates/loadsmith-core/src/parser_feed.rs:88-155 | In every interleaving, whatever else fails: if the destination finalized, it did so on exactly the batches of every distinct announced file, in first-announcement order, and no further file can come |
| ExactLoad.SuccessIsAnExactLoad | crates/loadsmith-core/src/runner.rs:1292-1476 | A data phase that ends without a failure left such a load finalized |
| ExactLoad.EarlyDeathIsNoLoad | crates/loadsmith-core/src/runner.rs:1200-1476 | Whenever the parser dies before its stream ended, as it does where a file is missing, or the destination before it finalized, nothing is ever finalized and the phase never succeeds, whatever happens after |
| ExactLoad.EveryLoadIsReached | crates/loadsmith-core/src/runner.rs:1200-1476 | And every such load is possible: for every list of files that are there, repeats included, and from every start whose pipe is whole, a run announces them and loads each distinct one, and succeeds |
| ExactLoad.RestIsDrained | crates/loadsmith-core/src/pump.rs:155-243 | A destination that stops reading holds nobody up, and neither does a failed run: the rest of the stream can still be read to its end, and none of it is forwarded |
| ExactLoad.CoreIsTheSupervisor | crates/loadsmith-core/src/runner.rs:1200-1476 | The core of that system is the supervised data phase: its state is what the loop makes of the events it saw |
| Lease.S3Lock.Create | crates/loadsmith-core/src/state_s3.rs:113-130 | Creates the lock object only if there is none |
| Lease.S3Lock.Replace | crates/loadsmith-core/src/state_s3.rs:138-140 | Overwrites the lock object only if its version is the one seen |
| Lease.Holder.Renew | crates/loadsmith-core/src/state.rs:512-548 | Whatever others do between its read and its write, a renewal writes only over its own lease; one that is released or lost writes nothing |
| Lease.Holder.Release | crates/loadsmith-core/src/state.rs:550-567 | A release removes the lock if it was its own when read, in two steps |
| Lease.Acquire | crates/loadsmith-core/src/state.rs:441-499 | The loop that takes the lock, with anything happening to the store between two calls, does what the protocol's steps do |
| Lease.RenewIsTheProtocol | crates/loadsmith-core/src/state.rs:512-548 | A renewal is the protocol's two steps |
| Lease.ReleaseIsTheProtocol | crates/loadsmith-core/src/state.rs:550-567 | So is a release |
| Lease.OwnershipWithoutTiming | crates/loadsmith-core/src/state.rs:441-499 | In every interleaving every renewal replaces only its own token's lock, and no version is replaced twice: one stealer at most |
| Lease.NeverWritesAgain | crates/loadsmith-core/src/state.rs:504-567 | A run that lost, released or gave up never writes or removes again |
| Lease.TimedStepKeeps | crates/loadsmith-core/src/state.rs:441-567 | Every step keeps the timed invariant: live runs hold the one lock there is, and nobody who is alive is about to be robbed |
| Lease.MutualExclusion | crates/loadsmith-core/src/state.rs:441-567 | If a live lease is never older than r, clocks differ by at most skew, r + skew is within the TTL and the observe window exceeds r: at most one live guard, no lost lease, and a release removes only its own lock |
| Lease.LiveLeaseLooksLive | crates/loadsmith-core/src/state.rs:465-468 | A live lease never looks expired, on any clock |
| Lease.LiveLeaseIsRenewedInTime | crates/loadsmith-core/src/state.rs:469-487 | A live lock is never watched unchanged for the observe window, whatever the clocks show |
| Lease.ExcludesIffTiming | crates/loadsmith-core/src/state.rs:441-499 | For every renewal bound, skew and observe window: no run they allow has two live guards if and only if bound plus skew is within the TTL of 15 seconds and the window exceeds the bound |
| Lease.ReleaseCanRemoveTheOthersLock | crates/loadsmith-core/src/state.rs:550-567 | And then a release removes the other run's lock |
| Lease.AbandonedLockIsTaken | crates/loadsmith-core/src/state.rs:475-497 | A crashed holder's lock is taken by whoever watched it unchanged for the observe window |
| Lease.RefusedOnlyByAnother | crates/loadsmith-core/src/state.rs:449-498 | In every run: who is refused never changed anything and had found a lock that another run then wrote over or removed; if it read a lock in its place, a run had written that one later |
| Lease.FreeLockIsRacedFor | crates/loadsmith-core/src/state.rs:456-477 | A run that finds no lock at a look or a readable poll is not refused: whatever the others do until its create lands, it gets the lock exactly when there is none then, and there is none if nobody wrote one |
| Lease.ExpiredLockIsTaken | crates/loadsmith-core/src/state.rs:462-497 | A lock that looks expired at the first look is stolen exactly when it is still that one as the write lands; else the run is refused |
| Lease.StealingHasAReason | crates/loadsmith-core/src/state.rs:462-487 | A run sets out to steal only a lock whose lease it read as expired at the first look, or that it watched for the observe window without seeing it change; one that cannot be read is watched |
| Lease.RenewalRefusesTheWatcher | crates/loadsmith-core/src/state.rs:476-481 | Once the holder has renewed, the watcher's next readable poll refuses it |
| Lease.ReleaseFreesTheLock | crates/loadsmith-core/src/state.rs:550-567 | A release of one's own lock takes it away; a lock of another is left in place |
| Lease.FailedRenewalIsTriedAgain | crates/loadsmith-core/src/state.rs:512-535 | A renewal that could not be written is tried again, and the lease is not lost |
| Lease.CrashedChangesNothing | crates/loadsmith-core/src/state.rs:441-567 | A run that crashed, wherever it was, changes nothing from then on |
| FlowControl.FlowWindow.Forwarded | crates/loadsmith-core/src/pump.rs:83-98 | The window is recomputed from the largest batch; grants are cumulative and never shrink; the 64-bit sum wraps |
| FlowControl.WindowIsBest | crates/loadsmith-core/src/pump.rs:86-89 | The window is the largest value in 1..=max whose size times the largest batch fits the budget, or 1 |
| FlowControl.BestWindowIsUnique | crates/loadsmith-core/src/pump.rs:86-89 | There is only one such window |
| FlowControl.FlowGrant.Grant | crates/loadsmith-plugin-sdk/src/flow.rs:61-70 | An older, smaller grant is ignored |
| FlowControl.InFlightIsBounded | crates/loadsmith-core/src/pump.rs:64-99 | With grants relayed late and merged, fetched minus forwarded never exceeds the ceiling |
| FlowControl.GrantsNeverShrink | crates/loadsmith-plugin-sdk/src/flow.rs:61-70 | Grants never shrink on either side |
| FlowControl.DeadlockFreeIff | crates/loadsmith-core/src/pump.rs:83-98 | A settled source may always fetch the next batch, in every run, if and only if the ceiling is below 2^64 - 1 |
| FlowControl.LargestCeilingDeadlocks | crates/loadsmith-core/src/pump.rs:90-96 | With the ceiling 2^64 - 1 the sum wraps at the first batch and the source stops after two |
| Schema.ProtocolRoundTrip | crates/loadsmith-arrow/src/schema.rs:124-190 | Protocol to Arrow is defined exactly on known types, and going back is the identity |
| Schema.ArrowRoundTrip | crates/loadsmith-arrow/src/schema.rs:55-121 | Arrow to protocol to Arrow is the identity exactly on types of the vocabulary whose maps have the canonical entries field |
| Schema.MappedIffSame | crates/loadsmith-arrow/src/schema.rs:55-121 | A protocol type says the same as an Arrow type (layout or parameters, and the children under their names, a map's key before its value) exactly when it is the one mapped to, and known |
| Fingerprint.TypeIsRead | crates/loadsmith-core/src/state.rs:216-262 | A decoder reads every encoded type back, whatever follows it, if its maps are pairs |
| Fingerprint.FieldsAreRead | crates/loadsmith-core/src/state.rs:200-214 | And every list of fields |
| Fingerprint.SameStreamIffSameSchema | crates/loadsmith-core/src/state.rs:176-214 | Two schemas whose maps are pairs, types outside the vocabulary included, feed the hasher the same bytes exactly when they are the same to the protocol; canonical ones exactly when they are equal |
| Fingerprint.OddMapsCollide | crates/loadsmith-core/src/state.rs:216-262 | The condition on maps is needed: for any three fields, two schemas of two columns each that are different to the protocol and have one fingerprint |
| Fingerprint.PairedIsLegible | crates/loadsmith-arrow/src/schema.rs:103-119 | Exactly the Arrow types whose maps are pairs arrive with no ambiguous name inside |
| Fingerprint.PlainNameTells | crates/loadsmith-core/src/state.rs:216-262 | A type without parameters is hashed under a name made of what it holds and its width |
| Fingerprint.OneLetterRenameIsNoticed | crates/loadsmith-core/src/state.rs:200-214 | A column renamed in one letter always changes the fingerprint |
| Fingerprint.HashType | crates/loadsmith-core/src/state.rs:216-262 | Hashing a type token by token is one fold over its encoding |
| Fingerprint.SchemaFingerprint | crates/loadsmith-core/src/state.rs:200-208 | The fingerprint is the FNV-1a fold over the schema's stream |
| Fnv.Fnv1a64.Write | crates/loadsmith-core/src/state.rs:330-335 | The loop is a fold over the bytes |
| Fnv.Fnv1a64.WritePrefixed | crates/loadsmith-core/src/state.rs:337-340 | A token is fed as its 64-bit little-endian length and its bytes |
| Fnv.FoldConcat | crates/loadsmith-core/src/state.rs:330-340 | Writing in pieces is one fold over the concatenation |
| Fnv.StepIsABijection | crates/loadsmith-core/src/state.rs:330-335 | Each byte permutes the 64-bit states, because the prime is odd |
| Fnv.OneByteDifferentNeverCollides | crates/loadsmith-core/src/state.rs:320-341 | Streams of equal length that differ in one byte never collide |
| Fnv.StreamIsInjective | crates/loadsmith-core/src/state.rs:337-340 | A stream of length-prefixed tokens falls apart in one way only |
| Fnv.PublishedHashes | crates/loadsmith-core/src/state.rs:318-335 | The published FNV-1a hashes of the empty text and of the letter a |
| Calendar.CivilIsTheDate | crates/loadsmith-cli/src/run_summary.rs:231-245 | For every day count, negative ones included, the result is a valid Gregorian date whose day number is the input |
| Calendar.CivilUndoesDayNumber | crates/loadsmith-cli/src/run_summary.rs:231-245 | Every valid date comes from exactly its day number |
| Calendar.NextDayIsNextDate | crates/loadsmith-cli/src/run_summary.rs:231-245 | The next day count gives the next date, across months, years and leap days; day 0 is the first of January 1970 |
| Timestamps.UtcIsCivil | crates/loadsmith-plugin-sdk/src/object_key.rs:124-137 | The second copy of the arithmetic agrees on every instant since 1970 |
| Timestamps.TextOrderIsTimeOrder | crates/loadsmith-cli/src/run_summary.rs:216-229 | Up to the end of year 9999 texts sort exactly as instants do, and only equal instants have equal texts |
| Timestamps.TextOrderEndsWithYear9999 | crates/loadsmith-cli/src/run_summary.rs:216-229 | And not a millisecond longer |
| Timestamps.TextIsReadBack | crates/loadsmith-cli/src/run_summary.rs:216-229 | Up to year 9999 the text has the form of section 5.6 of RFC 3339 and is read back, by the calendar, as the instant |
| Timestamps.KeyTimesSort | crates/loadsmith-plugin-sdk/src/object_key.rs:117-121 | Times in object keys sort as the seconds do, up to year 9999 |
| Timestamps.KeyTimeIsReadBack | crates/loadsmith-plugin-sdk/src/object_key.rs:117-121 | And are read back as the second |
| Timestamps.UtcDateBeginsTheText | crates/loadsmith-plugin-sdk/src/object_key.rs:111-115 | The date in an object key is how the RFC 3339 text of the instant begins |
| EditDistance.EditDistance | crates/loadsmith-plugin-sdk/src/config.rs:312-335 | The table computes the recursive distance |
| EditDistance.DistanceIsTheLeastCost | crates/loadsmith-plugin-sdk/src/config.rs:312-335 | The distance is the least number of insertions, deletions, substitutions and adjacent swaps that turn one text into the other |
| EditDistance.DistanceIsAMeasure | crates/loadsmith-plugin-sdk/src/config.rs:312-335 | Symmetric, zero exactly on equal texts, at most the longer length |
| EditDistance.SwapCountsOnce | crates/loadsmith-plugin-sdk/src/config.rs:312-313 | A swap of two adjacent characters anywhere costs one |
| EditDistance.Closest | crates/loadsmith-plugin-sdk/src/config.rs:300-310 | The suggestion is a plausible field (not the key, within the limit) than which none is closer or as close and earlier; none only if there is no plausible field |
| EditDistance.BestIsUnique | crates/loadsmith-plugin-sdk/src/config.rs:302-309 | So it is determined |
| Template.ParseTemplateLoop | crates/loadsmith-config/src/template.rs:52-74 | The loop over the text is the recursive reading of literals and expressions |
| Template.ExpressionIsReadIff | crates/loadsmith-config/src/template.rs:77-152 | A text is read as an expression exactly when it writes that one out: the name env, file or secret, and in parentheses its quoted arguments with commas between, white space around each; every other text is a syntax error |
| Template.WrittenIsFoundIff | crates/loadsmith-config/src/template.rs:53-126 | env or file with a name in quotes of either kind, written in braces, is that one expression exactly when the name holds neither the quote nor closing braces |
| Template.VariableResolvesIff | crates/loadsmith-config/src/template.rs:168-172 | Such a template resolves exactly when the variable is set, and then to its value |
| Template.FileResolvesIff | crates/loadsmith-config/src/template.rs:173-176 | And exactly when the file can be read, to its text without the white space at its end |
| Template.DisplayRoundTripIff | crates/loadsmith-config/src/template.rs:28-31 | A displayed call is read back as itself exactly when both parts are non-empty and hold no single quote |
| Template.WrittenCallIsFoundIff | crates/loadsmith-config/src/template.rs:53-126 | Written in braces a call is the one expression of its template exactly when its parts are non-empty, hold no single quote and no closing braces |
| Template.SubstituteTextLoop | crates/loadsmith-config/src/template.rs:200-213 | Literals and values are put one after the other; the first expression that fails decides |
| Template.InsertedValuesAreNotExpanded | crates/loadsmith-config/src/template.rs:200-249 | At every leaf of every tree the result is the template's literals and the looked-up values, verbatim, for variables, files and secrets: an inserted value is never read as a template again |
| Template.TextIsLiteralsAndValues | crates/loadsmith-config/src/template.rs:200-213 | A text resolves exactly when it is well formed and each variable, file and call in it has a value, to its literals and those values joined |
| Template.OutcomeIgnoresValues | crates/loadsmith-config/src/template.rs:200-249 | Whether a tree resolves, and its error, depends only on which variables, files and calls have a value, never on what the values hold |
| Template.ScanForesees | crates/loadsmith-config/src/template.rs:259-293 | After a scan a substitution fails only on a variable, a file, or a call the scan reported: never on syntax |
| Template.SucceedsIffAnswered | crates/loadsmith-config/src/template.rs:154-190 | Once variables and files were found, resolving succeeds exactly when every scanned call has a value |
| Template.ShapeIsKept | crates/loadsmith-config/src/template.rs:221-249 | Keys, tags, order, numbers and texts without an expression are kept |
| Document.ParseWith | crates/loadsmith-config/src/document.rs:54-90 | The static check accepts exactly the mappings whose templates parse and whose calls are allowed and declared, lists the distinct calls, and reports the first offender otherwise |
| Document.CheckSuffices | crates/loadsmith-config/src/document.rs:144-156 | A checked document with every secret resolves unless a variable or file is missing; once those are there, it resolves exactly when every listed secret has a value |
| Document.SecretFreeBlockHasNoCall | crates/loadsmith-config/src/document.rs:72-79 | After the check no call is anywhere below a secret-free block |
| Document.SecretFreeBlocksNeedNoSecrets | crates/loadsmith-config/src/document.rs:157-171 | So those blocks resolve without any secret, and the others are copied verbatim |
| Document.ResolveSubtrees | crates/loadsmith-config/src/document.rs:157-171 | The loop substitutes in the wanted blocks and stops at the first failure |
| Providers.JobsFor | crates/loadsmith-core/src/providers.rs:60-88 | Calls are grouped by declared instance, each with its distinct references in document order |
| Providers.JobsCoverEveryCallOnce | crates/loadsmith-core/src/providers.rs:60-88 | The jobs cover exactly the calls of declared instances, each once |
| Providers.Converse | crates/loadsmith-core/src/providers.rs:281-386 | One question after the other: a conversation gives values exactly when each was answered, in turn, with a value and nothing else, and the provider finished well; they are then the values of all references |
| Providers.ResolveAll | crates/loadsmith-core/src/providers.rs:160-195 | Values are accepted exactly when there was no signal, no root cause, and as many values as references |
| Providers.AcceptedMeansComplete | crates/loadsmith-core/src/providers.rs:189-195 | Whatever order the sessions end in, and whichever stopped early, accepted values cover every secret of a checked document |
| Providers.CheckedAndResolved | crates/loadsmith-core/src/providers.rs:63-195 | From the check to the config: with accepted values only a variable or a file can be missing |
| Mask.MaskList.Add | crates/loadsmith-config/src/mask.rs:39-72 | A value, its long lines and its JSON spelling are recorded once each, longest first |
| Mask.RecordedIsWhatReveals | crates/loadsmith-config/src/mask.rs:39-72 | What is recorded is exactly the values, their JSON spellings, and the trimmed lines of at least 8 characters of those with several lines |
| Mask.ContainingComesFirst | crates/loadsmith-config/src/mask.rs:69-71 | A value that holds another one comes before it, so it is replaced as a whole |
| Mask.JsonSpellingIsReadBack | crates/loadsmith-config/src/mask.rs:54-61 | The spelling recorded is one that a JSON reader (section 7 of RFC 8259) reads as the value |
| Mask.SpellingIsShortest | crates/loadsmith-config/src/mask.rs:54-61 | And no character has a shorter spelling than the one recorded |
| Mask.LinesAreTheText | crates/loadsmith-config/src/mask.rs:46-52 | The lines are the text, cut exactly at its line ends |
| Mask.MaskList.Apply | crates/loadsmith-config/src/mask.rs:74-84 | The loop replaces the recorded values one after the other |
| Mask.NothingNewAppears | crates/loadsmith-config/src/mask.rs:74-84 | Replacing one value brings in no occurrence of a text that neither begins nor ends with a star and holds no mask |
| Mask.NoRecordedValueRemains | crates/loadsmith-config/src/mask.rs:74-84 | No such recorded value remains, although later replacements rewrite earlier output |
| Mask.AlwaysGoesIffMaskable | crates/loadsmith-config/src/mask.rs:74-84 | And no other: whatever else is recorded a value always goes, if and only if it neither begins nor ends with a star and holds no mask |
| Mask.NoSecretIsLeft | crates/loadsmith-config/src/mask.rs:39-84 | After any sequence of values: neither a value, nor a long line of it, nor its JSON spelling is left, if it is such a text |
| Mask.SecretAlwaysGoesIff | crates/loadsmith-config/src/mask.rs:39-84 | For a value of one line this is exact, over everything else that may be recorded |
| Mask.CleanTextIsUnchanged | crates/loadsmith-config/src/mask.rs:74-84 | A text that holds no recorded value is left as it is |
| Mask.MaskingIsIdempotent | crates/loadsmith-config/src/mask.rs:74-84 | Masking twice is masking once when every recorded value is such a text or the mask itself |
| Mask.MaskedOnceIff | crates/loadsmith-config/src/mask.rs:74-84 | And not otherwise: beside any values that always go, masking twice is masking once for a recorded value if and only if it always goes or is the mask |

## Left out

- Processes, pipes, file descriptors, signals and the wire format of messages: plugins are senders of messages, exits and ends of input, in any order.
- Arrow IPC bytes: a stream is a sequence of batches and an end marker.
- HTTP, S3 signing and credentials, and the local lock file, whose replace is no compare-and-swap: the lock store answers each operation definitely and at once.
- Scheduling and durations: deadlines are steps that may happen at any time; the ping and watchdog timers appear only as failures.
- Resume tokens in the chain of runs: the checkpoints, the record and the next attempt carry them (`Source`, `StateSupervisor`, `Resume`), but `Pipeline` follows sources that report a cursor, for which the gap-free claim is made.
- A batch split over two files: `Pipeline` takes each file's range to begin after the previous one's, while the ledger itself (`SinkLedger`) accepts any range.
- A failed write of the state document: it ends the supervisor, which `Pipeline` has as a crash.
- The set-up of a run (handshake, configure, start): `CommitPoint` starts from anything it may leave; `ExactLoad` starts before the first file is announced.
- The relabelling of a file's batches with the stream's columns; in `ExactLoad` a file that does not fit is a parser that fails.
- What plugins do on `cancel`: the stream then ends without its marker.
- Source.DriveSource: which batches are granted is an input of the loop here; that grants are counted as `FlowGate` does is in `FlowControl`.
- Template.SubstituteTextLoop: that each value looked up is also handed to the mask list is not modelled.
- Document.ParseWith: the typed envelope, whose fields serde checks, is not modelled; the tree, its templates, calls and providers are.
- Document.CheckSuffices: says nothing of deserializing and validating the resolved tree, which happens after it.
- Parsing and rendering of object key templates, `check_schema_drift`, the state document's text and its versions, how long a retry waits: each would add only easy members.
- YAML and JSON parsing, the typed config and its validation: a pipeline file is a tree of values with its declared providers.
- The tracing deserializer, JSON Schema closing, telemetry, logging, summaries and the command line.
- Schema.ArrowRoundTrip: field metadata is not carried, and the contents of unions and the other types outside the vocabulary are not modelled.
- Fingerprint.SameStreamIffSameSchema: takes token lengths below 2^64; types outside the vocabulary share one name each, so what they hold is not told apart.
- Mask.AlwaysGoesIffMaskable: and the other exact statements on masking take a text that lacks at least one character.
- Lease.MutualExclusion: takes an acquisition's write to land within the same bound as a renewal.
