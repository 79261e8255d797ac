# Airgap Sync: verified models of its protocols

Airgap Sync copies MySQL tables as full snapshots over a one-way link. These Dafny files model the
parts of it that have to be right whatever is interrupted, and prove what they promise:

- **Promotion.** A run is imported, verified and swapped into the live table; every statement is
  durable on its own, and the process can fail or stop between any two of them. `Promotion.dfy` is
  the protocol as a step machine, `PromotionSafety.dfy` its invariant, `PromotionTheorems.dfy`
  what follows for every behaviour, `PromotionRecovery.dfy` and `PromotionCompletion.dfy` what an
  interrupted run becomes, `PromotionOutcome.dfy` what one uninterrupted call makes of any state, and
  `PromotionWindow.dfy` where recovery itself must not be interrupted.
  `Destination.dfy` and `Processor.dfy` have the code's own form: a class whose methods are the
  database statements, and a class whose methods issue them. Every call of `process` is proved to be
  a behaviour of the step machine, whatever fails and wherever the process dies, and to compute
  exactly that outcome when nothing fails.
- **Data path.** `RowCodec.dfy` (rows as JSON bytes, with the whole JSON grammar on the reading
  side), `Chunking.dfy` (greedy split into files), `Transport.dfy` (names), `Digest.dfy` (the
  order-independent digest) and `DataPath.dfy`, which puts them together: what the source scanned is
  what the destination stores, and its digest never differs.
- **Timeline.** `Timeline.dfy`: two stores, paged by different keys, are merged under one cursor.
- **Delivery and cycles.** `Delivery.dfy` is one run of the source with its two threads as a step
  machine; `Cycles.dfy` is the resumable cycle over all tables.
- **Telemetry.** `Store.dfy` (deduplication with expiring receipts, merging of run facts),
  `Progress.dfy` (numbered observations and their merge), `Alerts.dfy` (alert episodes).
- **Schema.** `Ddl.dfy`: the target of a CREATE TABLE statement is rewritten, and nothing else.

`dafny verify dfyconfig.toml` verifies all of them.

## Properties that hold only under a condition

Where the code does not keep a property in general, the model keeps the code as it is, and states
exactly when the property holds:

- An interrupted swap is always completed by the next uninterrupted call, whatever other runs are
  processed in between without being promoted (`WorkSurvivesInterruptions`,
  `UninterruptedProcessVerifies`, `CallVerifies`), unless the process stops between
  `record_verification` and the second `prepare_swapping` of `_recover_swap`
  (src/airgap_sync/destination/processor.py:451-453). Such a stop loses the run for good exactly if it
  has chunks or replaced a table: it then needs a staging table that no longer exists, or a backup
  name that stays taken. A run with neither is imported anew, renamed a second time and VERIFIED
  (`WindowLosesExactly`). Every new database with an honest run has a behaviour that stops there
  (`WindowIsReachable`). The live table is correct in either case.
- The tables tell whether an interrupted rename happened, except exactly in the case that a live table
  appeared meanwhile where the run was to create the first one (`SwapStateMeans`).
- VERIFIED, MISMATCH and SUPERSEDED are final exactly unless a metadata write of the same call fails
  after they were recorded; that failure overwrites them with FAILED
  (`FinalExactlyUnlessCleanupFails`), and some behaviour does so (`VerifiedCanFail`).
- The manifest is uploaded last, after all chunks, exactly if the upload thread did not die outside
  its handlers: a thread that dies at its start, or while it records a failed upload, is joined
  without a trace, and the run is delivered without its chunks (`ManifestComesLast`,
  `DeadWorkerIsNotNoticed`).
- `pending_bytes` equals the counted bytes on disk, outside the moment between the removal of a file
  and the subtraction, exactly in the runs in which nothing raised in that moment for a file that is
  not empty (`ExactUnlessReleaseRaises`, `AccountCanLeak`).
- A cycle that meets no failure completes exactly if no table it still has to deliver is blocked by
  a run that was left active. Only a failure that could not be recorded and an abandoned cycle leave
  such runs, and nothing repairs them later: from then on no number of runs without failure completes
  the cycle (`Run`, `RunAgain`, `FailureFreeButStuck`).
- Two published observations of one stage with the same number are equal exactly as long as no update
  hides a change: an unforced update that adds to a completed stage, within a second of the last
  write, while the file has the stage under its present number (`Update`, `UnforcedFinalCollides`).
  Callers force such updates, and then all attempts of a run converge at every receiver (`RecordAll`).
- The alerts of a fingerprint are in the order of their evidence exactly if no decision opens one with
  older evidence than that of an alert which a reset closed; where resets close nothing, older
  evidence never counts (`InOrderExactly`, `EvidenceNeverGoesBack`, `OlderEvidenceHasNoEffect`,
  `ResetForgetsOrder`).

## Assumptions

- One table is modelled at a time, and a table name stands for one source database: the table lock
  is keyed by database and table (src/airgap_sync/destination/mysql.py:366), the rename target by the
  table alone (src/airgap_sync/destination/processor.py:215).
- One SQL statement, one transaction and one RENAME TABLE are atomic. What a process reads between
  two of its statements it reads at once. The files of a run do not change while its manifest
  exists, as their hashes are checked.
- SHA-256 is an arbitrary function for the row digests, and free of collisions for reports and files;
  compression is the identity on contents. Clocks do not go back. Both databases order texts alike.
- The database returns the values that were inserted. Failing checks of engine, columns, foreign keys and
  triggers are failures of the next statement.
- Python's parsers for floats, decimals, dates, times and integers are parameters; values are taken
  as Python prints them, and what is printed is read back as the same value.

## Model

| member | source | states |
|---|---|---|
| PromotionTheorems.LiveIsOriginalOrVerified | src/airgap_sync/destination/processor.py:172-218 | In every reachable state the live table is the original one, or has all rows of one run and the digest and row count of its manifest; never a partial or unverified content. |
| PromotionTheorems.LiveNeverDisappears | src/airgap_sync/destination/mysql.py:744-755 | Once there is a live table no step, failure or crash leaves the name without one. |
| PromotionTheorems.CurrentContentSurvives | src/airgap_sync/destination/processor.py:399-459 | The content of the latest version (before the first: the original content) is always live or in the backup of a run that is not finalized. |
| PromotionTheorems.VersionHistory | src/airgap_sync/destination/mysql.py:757-812 | Source times of versions strictly increase, predecessors form one unbroken chain, and row counts add up from the first version to the latest. |
| PromotionTheorems.RowCountsTelescope | src/airgap_sync/destination/mysql.py:757-812 | Latest row count = first row count + sum of all net changes. |
| PromotionTheorems.VersionsOnlyGrow | src/airgap_sync/destination/mysql.py:757-812 | Only finalizing changes the versions: it appends one, and its run is VERIFIED by the same transaction. |
| PromotionTheorems.RenamesFollowVersionOrder | src/airgap_sync/destination/processor.py:353-366 | A rename into live is by a run newer than the latest version, or by that version's own run. |
| PromotionTheorems.LiveMatchesLatest | src/airgap_sync/destination/processor.py:422-456 | The live table has the digest of the latest version unless its last rename is not finalized yet. |
| PromotionTheorems.ChunksTakeEffectOnce | src/airgap_sync/destination/processor.py:266-296 | In every reachable state the staging rows are the multiset union of the rows of the chunks marked IMPORTED; a run past import has all chunks and the manifest's row total. |
| PromotionTheorems.MismatchExactlyIfContentDiffers | src/airgap_sync/destination/processor.py:331-339 | A run becomes MISMATCH exactly if its rows differ from its manifest in digest or count. |
| PromotionTheorems.FinalExactlyUnlessCleanupFails | src/airgap_sync/destination/processor.py:153-170 | A final status is left exactly by a failure of the same run after it was recorded. |
| PromotionTheorems.FinalStatusRecorded | src/airgap_sync/destination/processor.py:101-112 | VERIFIED implies a recorded version, MISMATCH a differing content, SUPERSEDED that the run was found older. |
| PromotionRecovery.SwapIntentStartsSwap | src/airgap_sync/destination/mysql.py:737-742 | Persisting the swap intent brings the run to a state from which the swap can be completed. |
| PromotionRecovery.StepProgress | src/airgap_sync/destination/processor.py:399-459 | Every step, other runs being processed included, keeps an interrupted swap completable or completes it; excluded are the promotion of another run and a stop inside lines 451-453. |
| PromotionWindow.WindowLosesExactly | src/airgap_sync/destination/processor.py:439-459 | After a crash or failure between the two statements of lines 451-453 the run can never be VERIFIED if and only if it has chunks or replaced a table. |
| PromotionWindow.StopInWindowLosesRun | src/airgap_sync/destination/processor.py:451-453 | What such a stop leaves behind: imported chunks without their staging table, or a backup name that is taken. |
| PromotionWindow.EmptyRunRecovers | src/airgap_sync/destination/processor.py:220-303 | A run without chunks that replaced no table is verified by further calls, which import and rename it once more. |
| PromotionWindow.WindowIsReachable | src/airgap_sync/destination/processor.py:399-459 | In every new database with an honest run, with or without a table in its place, some behaviour reaches the window and stops there. |
| PromotionWindow.VerifiedCanFail | src/airgap_sync/destination/processor.py:153-170 | In every such database some behaviour makes a VERIFIED run FAILED. |
| PromotionWindow.LostForever | src/airgap_sync/destination/processor.py:187-192 | A run in either of these situations is never VERIFIED, whatever happens afterwards. |
| PromotionCompletion.WorkSurvivesInterruptions | src/airgap_sync/destination/processor.py:172-218 | However often import, verification, swap or recovery of a run is interrupted, and whatever other runs are processed in between without being promoted, it is VERIFIED or can still be completed. |
| PromotionOutcome.UninterruptedProcessVerifies | src/airgap_sync/destination/processor.py:172-218 | From any such state the statements of one uninterrupted call end VERIFIED: live has exactly the run's rows, and its staging table was renamed exactly once. |
| PromotionOutcome.OutcomeOfRun | src/airgap_sync/destination/processor.py:172-218 | What one uninterrupted call makes of a run that can be imported: MISMATCH exactly if its rows are not those of its manifest, else SUPERSEDED if older than the latest version, FAILED if as old, VERIFIED otherwise; live and versions change only in the last case. |
| PromotionOutcome.NextStatementSucceeds | src/airgap_sync/destination/processor.py:172-218 | No test of the code stops a run that only needs its own processing. |
| Destination.DestinationDb.RegisterValidatedRun | src/airgap_sync/destination/mysql.py:411-511 | A new run gets its row, VALIDATED with all chunks pending; a known run stays as it is. |
| Destination.DestinationDb.BeginImport | src/airgap_sync/destination/mysql.py:620-627 | The run is IMPORTING, nothing else changes. |
| Destination.DestinationDb.CompleteStaged | src/airgap_sync/destination/mysql.py:629-650 | STAGED only if all chunks are imported and their rows total the manifest's count. |
| Destination.DestinationDb.SetVerifying | src/airgap_sync/destination/mysql.py:652-658 | The run is VERIFYING, nothing else changes. |
| Destination.DestinationDb.RecordVerification | src/airgap_sync/destination/mysql.py:681-689 | STAGED if the digest matched, MISMATCH otherwise. |
| Destination.DestinationDb.RecordRecovered | src/airgap_sync/destination/processor.py:439-451 | During recovery the run goes back to STAGED once the live table matched. |
| Destination.DestinationDb.SetSuperseded | src/airgap_sync/destination/mysql.py:716-721 | The run is SUPERSEDED; no other run and no version changes. |
| Destination.DestinationDb.PrepareSwapping | src/airgap_sync/destination/mysql.py:737-742 | SWAPPING with what the rename will find, before the rename and again after it was verified. |
| Destination.DestinationDb.CreateStagingTable | src/airgap_sync/destination/mysql.py:532-533 | An empty staging table of the run. |
| Destination.DestinationDb.RenameForPromotion | src/airgap_sync/destination/mysql.py:744-755 | Staging becomes live and live the backup, both or neither; refused when a name is missing or taken. |
| Destination.DestinationDb.FinalizeVerified | src/airgap_sync/destination/mysql.py:757-812 | VERIFIED together with the version row, or neither: refused when the latest version is not the expected one or not older; an own version is not added twice. |
| Destination.DestinationDb.FailRun | src/airgap_sync/destination/mysql.py:865-870 | FAILED unless the swap intent is persisted. |
| Destination.DestinationDb.InsertBatches | src/airgap_sync/destination/processor.py:470-495 | Rows inserted in batches are exactly the rows, whatever the batch size. |
| Destination.DestinationDb.ImportChunk | src/airgap_sync/destination/processor.py:461-506 | A chunk is imported in one transaction that adds exactly its rows and marks it IMPORTED; a failure leaves rows and other chunks as they were. |
| Destination.DestinationDb.Commit | src/airgap_sync/destination/mysql.py:373-382 | Rows, mark and row count check take effect together or not at all. |
| Destination.DestinationDb.FailChunk | src/airgap_sync/destination/mysql.py:613-618 | The chunk is marked as failed after the rollback. |
| Destination.DestinationDb.RemoveLeftover | src/airgap_sync/destination/mysql.py:814-815 | Cleanup removes backups, staging tables and files only, never the live table. |
| Processor.DestinationProcessor.Process | src/airgap_sync/destination/processor.py:101-170 | Every call is part of a behaviour of the protocol and holds no lock afterwards; what it reports is recorded; BUSY exactly if another process holds a lock; if nothing fails it leaves the database in the outcome of the run, but for what it cleaned up, and reports it. |
| Processor.DestinationProcessor.CallJudges | src/airgap_sync/destination/processor.py:172-218 | That outcome for every run that can be imported, whatever its content and age. |
| Processor.DestinationProcessor.CallVerifies | src/airgap_sync/destination/processor.py:399-459 | That outcome is VERIFIED for every run that only needs its own processing, an interrupted swap included. |
| Processor.DestinationProcessor.ProcessLocked | src/airgap_sync/destination/processor.py:172-218 | The same for the part under the locks, up to the exception it may end in. |
| Processor.DestinationProcessor.Stage | src/airgap_sync/destination/processor.py:220-303 | Import ends ready for verification, or raises where the outcome is a failure. |
| Processor.DestinationProcessor.OpenStaging | src/airgap_sync/destination/processor.py:228-242 | A staging table without a record, or imported chunks without their staging table, are refused; otherwise there is a staging table. |
| Processor.DestinationProcessor.ImportChunks | src/airgap_sync/destination/processor.py:266-296 | All chunks are imported in order; those marked IMPORTED are skipped. |
| Processor.DestinationProcessor.Verify | src/airgap_sync/destination/processor.py:307-339 | The run goes on exactly if the staging digest is the manifest's. |
| Processor.DestinationProcessor.Ordering | src/airgap_sync/destination/processor.py:341-366 | A run that is not newer is superseded or refused; otherwise nothing changes. |
| Processor.DestinationProcessor.Promote | src/airgap_sync/destination/processor.py:368-397 | Intent, rename and version in this order; ends VERIFIED. |
| PromotionTheorems.SwapStateMeans | src/airgap_sync/destination/processor.py:400-417 | In every reachable state with a persisted swap intent: never do both answers hold; "before" means that staging has all rows and the declared digest and was never renamed; "after" that it was renamed, once if the run has chunks; neither holds exactly if a live table appeared where the run was to create the first one. |
| Processor.DestinationProcessor.RecoverSwap | src/airgap_sync/destination/processor.py:399-459 | An interrupted swap is finished or superseded; refused exactly if the tables are in neither state of the rename. |
| Processor.DestinationProcessor.RestoreSwap | src/airgap_sync/destination/processor.py:439-453 | After the rename the live table is verified and the intent written back. |
| Processor.DestinationProcessor.RetryCleanup | src/airgap_sync/destination/processor.py:519-536 | Cleanup changes no status and no version; backup and files are gone if nothing fails. |
| Processor.DestinationProcessor.CleanupSuperseded | src/airgap_sync/destination/processor.py:508-517 | The same for the staging table and files of a superseded run. |
| Digest.SummaryIgnoresOrder | src/airgap_sync/common/verification.py:62-93 | Two listings of the same multiset of rows have the same summary. |
| Digest.EveryCopyCounts | src/airgap_sync/common/verification.py:73-79 | A further copy of a row adds its hash and one to the count; copies never cancel. |
| Digest.AnyReadOrder | src/airgap_sync/destination/processor.py:73-86 | Every order in which a table is read gives the digest of its content. |
| Digest.MultisetDigest.Update | src/airgap_sync/common/verification.py:73-79 | The accumulator holds the summary of the rows so far. |
| Digest.MultisetDigest.Finish | src/airgap_sync/common/verification.py:86-93 | The summary is that of the multiset of all rows. |
| RowCodec.RoundTrip | src/airgap_sync/common/row_codec.py:64-155 | Every row of supported values is encoded, and decoding gives back exactly these values. |
| RowCodec.EncodingIdentifies | src/airgap_sync/common/row_codec.py:64-80 | Rows have the same encoding exactly if they have the same values. |
| RowCodec.EncodesExactlySupportedTypes | src/airgap_sync/common/row_codec.py:93-119 | A row is refused exactly if it has a value of an unsupported type. |
| RowCodec.RowOnOneLine | src/airgap_sync/common/row_codec.py:64-80 | An encoded row has no line break or other control character and ends in a bracket. |
| RowCodec.Base64RoundTrip | src/airgap_sync/common/row_codec.py:108-132 | Decoding undoes Base64 for every byte string. |
| RowCodec.StringParses | src/airgap_sync/common/row_codec.py:64-90 | Strings are escaped so that reading them stops at their end and gives them back. |
| RowCodec.NumberStops | src/airgap_sync/common/row_codec.py:83-90 | A number is read up to its end and not further. |
| RowCodec.DurationDecodes | src/airgap_sync/common/row_codec.py:117-155 | Days, seconds and microseconds give back every duration in range, negative ones included. |
| Chunking.ChunkWriter.WriteRow | src/airgap_sync/source/chunk_writer.py:104-121 | Rows are added to the open chunk, which is closed when it reaches a threshold; refused after finish or abort. |
| Chunking.ChunkWriter.CloseCurrentChunk | src/airgap_sync/source/chunk_writer.py:123-132 | The open chunk becomes the next closed one, with its rows, bytes and content. |
| Chunking.ChunkWriter.Finish | src/airgap_sync/source/chunk_writer.py:134-141 | The chunks are the greedy split of all rows: numbered from 1, none empty, all but the last full. |
| Chunking.ChunkWriter.Abort | src/airgap_sync/source/chunk_writer.py:143-150 | Closed chunks stay, the open one is dropped; no effect after finish or abort. |
| Chunking.OpenChunk.WriteRow | src/airgap_sync/source/chunk_writer.py:198-205 | Rows, bytes and content follow what was written, one line feed per row. |
| Chunking.SplitUnique | src/airgap_sync/source/chunk_writer.py:104-121 | Rows and thresholds determine the split: no other list of chunks obeys both thresholds. |
| Transport.NamesParseBack | src/airgap_sync/common/transport.py:9-32 | Names of chunks are accepted and give back their number exactly for the first 999999. |
| DataPath.ScanTable | src/airgap_sync/source/scanner.py:61-129 | The chunks are the greedy split and the summary the digest of all rows of all batches; fails exactly if a row cannot be encoded. |
| DataPath.ValidateManifest | src/airgap_sync/destination/incoming.py:92-133 | Accepted exactly if it is a manifest as the source writes it for that run, with agreeing counts and chunks numbered and named in order; the error is that of the first check that fails. |
| DataPath.ScanIsValid | src/airgap_sync/source/delivery.py:283-288 | What a scan declares always passes the source's own count check and the destination's checks of counts and names. |
| DataPath.ImportRows | src/airgap_sync/destination/processor.py:461-506 | Reading line by line and inserting in batches gives exactly the rows of the chunk; fails exactly on an undecodable line or a wrong count. |
| DataPath.LinesOfFrame | src/airgap_sync/destination/processor.py:481-483 | Joining rows with line feeds and splitting and stripping them gives the same rows. |
| DataPath.ChunkRoundTrip | src/airgap_sync/destination/processor.py:481-490 | A chunk file is read back as exactly the rows written to it. |
| DataPath.SourceRunIsHonest | src/airgap_sync/destination/processor.py:73-86 | For every table, threshold and split: the received run is accepted, its rows are the source's, its digest the declared one. |
| DataPath.NoFalseMismatch | src/airgap_sync/destination/processor.py:331-339 | In every behaviour such a run is never MISMATCH; past import its staging rows are the source's rows, and every reading order gives the manifest's digest. |
| Timeline.ReadRuns | src/airgap_sync/monitor/timeline.py:381-488 | A page goes on after its cursor, in order, whatever query fails; if none fails it has exactly the records up to the next cursor. |
| Timeline.Walk | src/airgap_sync/monitor/timeline.py:381-488 | Following the cursors ends and shows every key once and in order; without failing queries exactly the records of the unpaged merge, for every limit. |
| Timeline.OneRecordPerKey | src/airgap_sync/monitor/timeline.py:408-444 | The unpaged merge has at most one record per key. |
| Timeline.PageIsComplete | src/airgap_sync/monitor/timeline.py:446-464 | No record up to the frontier is missing from what a page has read. |
| Timeline.FrontierAdvances | src/airgap_sync/monitor/timeline.py:446-482 | The frontier is after the cursor, so the walk goes on. |
| Timeline.ExactDestinations | src/airgap_sync/monitor/timeline.py:269-292 | Every source of a page gets the destination row of its identity, if there is one. |
| Timeline.ExactSources | src/airgap_sync/monitor/timeline.py:295-317 | Every destination gets up to two sources of its identity. |
| Timeline.MergeEntries | src/airgap_sync/monitor/timeline.py:408-437 | The entries are those of the destinations and the sources of the page, each at the key of the row it shows. |
| Timeline.UniqueEntries | src/airgap_sync/monitor/timeline.py:438-444 | One entry per key after the cursor, which shows a destination if any entry of that key does. |
| Timeline.Cut | src/airgap_sync/monitor/timeline.py:463-482 | The first limit entries; the next cursor covers them and nothing else. |
| Delivery.ManifestComesLast | src/airgap_sync/source/delivery.py:273-352 | When the manifest upload starts the schema is uploaded; all chunks are, exactly if the worker did not die or there are none. |
| Delivery.DeadWorkerIsNotNoticed | src/airgap_sync/source/delivery.py:129-134 | A run that is delivered without its chunk, after the worker died at its start. |
| Delivery.DeliveredIsConfirmed | src/airgap_sync/source/state.py:364-396 | A last delivered run has a confirmed and recorded manifest. |
| Delivery.UploadsInOrder | src/airgap_sync/source/delivery.py:129-208 | Every artifact is uploaded by at most one call and after it was registered: chunks in sequence, then schema, then manifest. |
| Delivery.NoChunkIsLost | src/airgap_sync/source/delivery.py:160-184 | A chunk file is removed only after its upload is confirmed and recorded. |
| Delivery.PendingBytesAccount | src/airgap_sync/source/delivery.py:214-248 | In every run the account is the size of the counted chunks on disk and of those removed without, or not yet with, the subtraction; it exceeds the limit by at most the refused chunk. |
| Delivery.ExactUnlessReleaseRaises | src/airgap_sync/source/delivery.py:177-208 | The account equals the counted bytes on disk exactly in the runs in which nothing raised between the removal of a file that is not empty and the subtraction; no other error breaks it. |
| Delivery.AccountCanLeak | src/airgap_sync/source/delivery.py:177-208 | Wherever a first chunk is admitted, some run removes its file and keeps counting its bytes. |
| Delivery.EveryRunEnds | src/airgap_sync/source/delivery.py:129-403 | No interleaving blocks, and the number of steps is bounded by the number of chunks. |
| Cycles.CycleRunner.Run | src/airgap_sync/source/cycle.py:54-104 | Cycles stay in order and delivered tables delivered under every failure; without failure the cycle completes exactly if no table is blocked, and waits for a blocked table otherwise; nothing unblocks a table later. |
| Cycles.CycleRunner.RunAgain | src/airgap_sync/source/cycle.py:54-104 | A cycle that waits for a blocked table is not completed by any number of runs without failure. |
| Cycles.FailureFreeButStuck | src/airgap_sync/source/state.py:307-326 | For every list of tables this happens: one failure that could not be recorded, and every later run meets none. |
| Cycles.CycleRunner.Resume | src/airgap_sync/source/state.py:574-604 | The active cycle is resumed, or a new one created; tables in sync when the process stopped can be tried again. |
| Cycles.CycleRunner.DeliverTable | src/airgap_sync/source/cycle.py:64-91 | A table is marked DELIVERED only after its sync delivered, FAILED with a retry time otherwise. |
| Cycles.CycleRunner.DeliverTables | src/airgap_sync/source/cycle.py:64-101 | Tables are delivered in order, up to the first that fails; delivered ones are skipped. |
| Cycles.SourceState.StartCycleTable | src/airgap_sync/source/state.py:522-533 | The table is RUNNING, counted as one attempt more, and the cycle is RUNNING. |
| Cycles.SourceState.DeliverCycleTable | src/airgap_sync/source/state.py:535-540 | The table is DELIVERED with its run. |
| Cycles.SourceState.FailCycleTable | src/airgap_sync/source/state.py:542-555 | The table is FAILED and the cycle waits until the retry time. |
| Cycles.SourceState.CompleteCycle | src/airgap_sync/source/state.py:557-562 | Only a cycle whose tables are all delivered is completed. |
| Cycles.SourceState.CreateCycle | src/airgap_sync/source/state.py:481-495 | A new cycle has all tables pending; there is no other active one. |
| Cycles.SourceState.AbandonActiveCycle | src/airgap_sync/source/state.py:564-572 | The active cycle is abandoned, everything else stays. |
| Cycles.SourceState.RecoverInterruptedCycle | src/airgap_sync/source/state.py:574-604 | Tables in sync are FAILED and their active runs FAILED, nothing else changes. |
| Cycles.SourceState.SyncTable | src/airgap_sync/source/state.py:307-326 | A table with an active run gets no second one. |
| Cycles.OneFailedTable | src/airgap_sync/source/state.py:542-555 | A cycle that waits has exactly one failed table; the others are delivered or pending. |
| Cycles.RecoveryUnblocks | src/airgap_sync/source/state.py:574-604 | Recovery unblocks exactly the tables that were in sync. |
| Store.TelemetryStore.Ingest | src/airgap_sync/monitor/store.py:156-205 | Rejected outside the window, conflicting for a known name, duplicate for a known digest, otherwise stored; what is stored was never stored before. |
| Store.NeverStoredBefore | src/airgap_sync/monitor/store.py:156-205 | An accepted report without a receipt is new, although receipts expire. |
| Store.ReceiptOutlivesWindow | src/airgap_sync/common/models.py:226-239 | When a receipt expires its report is outside the acceptance window, for every accepted configuration. |
| Store.TelemetryStore.Retention | src/airgap_sync/monitor/store.py:254-289 | Of samples, receipts, transfers and runs only expired ones go, oldest first and at most one batch of each; never a node's latest sample or a receipt of a sample; what is left is unchanged. |
| Store.Prune | src/airgap_sync/monitor/store.py:254-289 | At most limit entries before the cutoff are removed, the oldest, and none that is to be kept. |
| Store.MergeRun | src/airgap_sync/monitor/store.py:208-251 | The loop over the fields computes the merged row: first values stay, the status follows newer reports, differences are conflicts. |
| Store.MergeIsMonotone | src/airgap_sync/monitor/store.py:208-251 | Status rank never decreases, no field changes, no conflict is dropped, the last capture does not go back. |
| Store.ArrivalOrderDoesNotMatter | src/airgap_sync/monitor/store.py:208-251 | Reports that agree give the same row without conflicts in every order and with every repetition. |
| Progress.MergeReceived | src/airgap_sync/monitor/progress.py:265-318 | The stages after a fact are those of merging its observations one by one. |
| Progress.MergeNeverRegresses | src/airgap_sync/monitor/progress.py:286-317 | Within an attempt counters never go back, and positions only forward. |
| Progress.NewestIsKept | src/airgap_sync/monitor/progress.py:286-317 | In every order and with every repetition the observation with the greatest generation and sequence is kept. |
| Progress.ReceiverConverges | src/airgap_sync/monitor/progress.py:265-318 | Whatever published observations arrive, every stage ends with the newest of them. |
| Progress.Recorder.Update | src/airgap_sync/monitor/progress.py:76-206 | Every update, forced or not, keeps memory fit for publishing, exactly unless it is an unforced update of a completed stage within a second of the last write, adds something, and the file has the stage under its present number. |
| Progress.RecordAll | src/airgap_sync/monitor/progress.py:50-206 | Any number of attempts, one after the other from an empty file, whose callers force final updates that add something: what they publish converges at every receiver, in every order of arrival. |
| Progress.HistoryConverges | src/airgap_sync/monitor/progress.py:265-318 | Receivers that get the same published observations, in whatever order and however often, show the same. |
| Progress.Recorder.constructor | src/airgap_sync/monitor/progress.py:53-74 | A new attempt takes a generation after all in the file. |
| Progress.PublishingIsConsistent | src/airgap_sync/monitor/progress.py:149-193 | What is written is consistent with everything published before, by this attempt and earlier ones. |
| Progress.UnforcedFinalCollides | src/airgap_sync/monitor/progress.py:136-148 | What such an update hides is published by the next write of another stage, with the number of a different observation. |
| Alerts.AlertTable.Apply | src/airgap_sync/monitor/alerts.py:89-188 | What a decision does to the alerts of its fingerprint, and that others stay. |
| Alerts.AlertTable.DisableAll | src/airgap_sync/monitor/alerts.py:783-790 | Every open alert is closed. |
| Alerts.AtMostOneOpen | src/airgap_sync/monitor/alerts.py:89-188 | Whatever is decided, at most the newest alert of a fingerprint is open. |
| Alerts.UnknownKeepsEpisodes | src/airgap_sync/monitor/alerts.py:100-106 | UNKNOWN opens nothing, closes nothing and keeps the evidence. |
| Alerts.InOrderExactly | src/airgap_sync/monitor/alerts.py:89-188 | The alerts of a fingerprint are in the order of their evidence at every point of a history, exactly if no decision opens an alert with older evidence than one that a reset closed. |
| Alerts.EvidenceNeverGoesBack | src/airgap_sync/monitor/alerts.py:89-188 | With dated decisions evidence times never go back over the whole history of a fingerprint, as long as no reset closes an open alert. |
| Alerts.DisabledExactlyByResets | src/airgap_sync/monitor/alerts.py:680-686 | A history has a DISABLED alert exactly if one of its resets closed an open one. |
| Alerts.DecisionGoesForward | src/airgap_sync/monitor/alerts.py:107-188 | A recovered alert is reopened only by newer evidence, or by the same evidence of a kind that ages; the order is broken exactly by older evidence behind a DISABLED alert. |
| Alerts.OlderEvidenceHasNoEffect | src/airgap_sync/monitor/alerts.py:107-188 | Evidence older than what is stored changes nothing, exactly unless it asks for an alert and the newest one is DISABLED. |
| Alerts.ResetForgetsOrder | src/airgap_sync/monitor/alerts.py:680-686 | After any history with an open alert and a reset, every decision that asks for an alert opens one, however old its evidence. |
| Ddl.ScanIdentifier | src/airgap_sync/destination/ddl.py:21-40 | The loop reads the identifier that starts at a position, with doubled quotes undone, and where it ends. |
| Ddl.RewriteCreateTableTarget | src/airgap_sync/destination/ddl.py:84-112 | The checks in their order, and the result of the rewrite or the error of the first check that fails. |
| Ddl.ScanCode | src/airgap_sync/destination/ddl.py:43-81 | The loop computes the code text. |
| Ddl.CodeTextKeepsCode | src/airgap_sync/destination/ddl.py:43-81 | The code text keeps exactly the characters outside literals and comments; it is refused exactly if one is not closed. |
| Ddl.RewriteChangesOnlyTheName | src/airgap_sync/destination/ddl.py:84-112 | Reading the result again gives the new name, however it is quoted, and everything before and after it is unchanged. |
| Ddl.RewritesCompose | src/airgap_sync/destination/ddl.py:84-112 | Rewriting twice is rewriting once. |

## Left out

- Store.TelemetryStore.Retention: the table `observations`, which only remembers files that were looked at, is left out.
- Store.TelemetryStore.Ingest: filesystem and storage samples and the insertion of nodes without a sample carry no property and are left out.
- Processor.DestinationProcessor.Process: the lock of the run and the lock of the table are taken together. Whether a rejected file set is final or incomplete is not distinguished.
- Processor.DestinationProcessor.Stage: the rewritten schema statement is the subject of `Ddl.dfy`; engine, columns and generated columns are failures of the next statement.
- Processor.DestinationProcessor.Promote: the refusals of foreign keys and triggers are failures of the next statement.
- Destination.DestinationDb.RegisterValidatedRun: the comparison of a known run's recorded identity with its manifest is left out, because a run's manifest never changes in the model.
- DataPath.ValidateManifest: bounds of single fields (positive sizes, shape of the hashes) belong to reading the file and are carried by the types; the parsing of the time is a parameter.
- Destination.DestinationDb.CreateStagingTable: engine, columns and generated columns of the staging table are not modelled; a table that fails these checks is a failure of the next statement.
- Timeline.ReadRuns: the text form of the cursor and the progress attached to items are left out; an item shows its rows and its association, not the derived times and rates.
- RowCodec.RoundTrip: texts are their UTF-8 bytes, whose validity is not examined; padding beyond what Base64 needs is refused, where some Python versions ignore it.
- Chunking.ChunkWriter.WriteRow: failing writes and renames of chunk files are left out; an aborted writer keeps its closed chunks either way.
- Delivery.PendingBytesAccount: free disk space is not modelled; the failure it causes is possible at every step of the scan.
- Cycles.CycleRunner.Run: the waiting of the worker between cycles, and the columns of `table_state`, are left out.
- Progress.Recorder.Update: rates, sampling windows, totals and the size limit of the file are left out; the file held by a recorder has numbered items only; seconds are whole.
- Alerts.AlertTable.Apply: severity, message and details follow the decision and are left out, as is the deletion of old alerts, after which evidence order starts anew.
- Ddl.ScanCode: spaces, letters and their case are those of ASCII.
- How alert decisions are computed, host and disk probes, the web application, command line, configuration, migrations and offline packaging: separate concerns with easier properties.
- Uploading a file, its retries and the locks of Windows: an upload call ends confirmed, failed or with an exception.
- Several tables at once: under the assumption above, the protocol of one table touches only the rows and names of that table's own runs.
