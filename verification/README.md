# Verified model of mptunnel

mptunnel carries byte streams over several network paths at once and comes with a lab that
measures it. This project models the parts of both where correctness depends on many steps
together, and proves what they promise over every input, every interleaving or every run.

- **Upload sink** (`Sink`, `SinkFlush`, `SinkRun`, `SinkSafety`, `SinkFinal`, `SinkHistory`): handler
  threads, the serving thread, the snapshot thread and `quiesce`, one step per lock-protected region.
  A finalised progress file is complete and final, tells exactly what each connection did, and the
  dirty test of the flush loses no update.
- **Upload probe** (`AckWire`, `UploadStream`, `UploadRun`, `UploadProgress`): the acknowledgement
  protocol between probe and sink over streams that are cut anywhere, with its exact byte bound, how
  closely it follows, and exactly when a stream can still finish.
- **Row enrichment** (`Enrichment`, `UploadObserver`): when an upload row counts as exact, and what
  an exact row says about the run of the sink behind it.
- **Process supervisor** (`ConfigStore`, `Process`, `ProcessSafety`, `ProcessRounds`): shutdown,
  generations of a managed VPN, activation of configuration revisions and the fall back from one that
  fails. The host's publication, every store of the protection flag and every return of a host call
  are steps of their own.
- **Champion ledger** (`Statistics`, `OrderStatistics`, `SplitMix`, `Bootstrap`, `LedgerRecords`,
  `LedgerValidation`, `LedgerOperations`, `LedgerRuns`, `LedgerVerdicts`): the paired bootstrap and its
  generator, the two linked histories, the validator and the operations that must always satisfy it,
  and what every comparison concludes and records.
- **Android editor** (`Toml`, `Migrate`, `MigrateEditor`, `MigrateMeaning`, `PatchPaths`, `Projection`,
  `RoundTrip`, `Finalize`, `PatchMaterials`, `UniqueKeysKept`) and **runtime bridge** (`AndroidBridge`,
  `BridgeCalls`): tree rewrites with what they keep, their inverse and their frame, and start/stop
  called from any number of threads.
- **Schedule generator** (`NetemSeed`, `Decimal`, `Tokens`, `Schedule`, `ScheduleMeaning`,
  `ScheduleDocument`): the Feistel permutation behind the seeds, canonical tokens, the draw behind
  every number of a row, and a generator that meets its validator.
- **Reliable stream** (`StreamChunks`, `OffsetRanges`, `OffsetSets`, `ReceivePreviews`, `RecvStream`,
  `SendStream`, `StreamRun`, `StreamRecovery`, `StreamProgress`): both ends of a multipath stream, proved to behave
  as sets of offsets; delivery over paths that lose, repeat and reorder; and exactly when what was
  lost can still be recovered within the receiver's limits.

Where the code does not have a property for all inputs, the model gives an input or a run where it
fails and states exactly when it holds:

- A complete finalised sink snapshot can become incomplete if and only if the listening socket is
  still open (`SinkFinal.BreakableIff`); `SinkFinal.ServedAfterQuiesce` is such a run.
- The probe's acknowledgement errors are unreachable if and only if a stream stays within 10^124
  bytes (`SafeExactlyBelow`); `OverlongLineReachable` is a run beyond it.
- Projecting a patched document returns the projection if and only if it states the target
  resolution and no other credential already has its id (`ProjectAfterPatch`); see
  `SilentTargetIsLost` and `TakenIdIsLost`.
- An enriched row is exact only if the probe time does not round to zero microseconds
  (`ExactExactlyWhen`); see `TooShortToBeExact`.
- A published VPN is always protected, but an abort can meet one if and only if the teardown timeout
  expires between the check of the shutdown request and the store of the flag
  (`AbortMeetsPublicationIff`); `LateFlagRun` is such a run. The two lie in one stretch without an
  await, so this takes a thread held up there for the whole timeout.
- An upload stream can still finish if and only if the probe listens and the terminal line is seen,
  under way, or can yet be sent (`CanFinishIff`).
- A saved document can be finalised if and only if nothing in it but the three references the editor
  wrote is managed (`SavedDocumentFinalizesIff`).
- Whatever was lost, everything written can still be delivered if and only if the receiver is not
  stuck (`RecoverableIff`), and some run gets stuck if and only if the range limit is at most both
  reorder limits (`GetsStuckIff`), as it is by default. `OneByteBlocks` is the smallest such run.
- A stop can unregister a runtime other than the one it stopped, and a failed start can cancel the
  reservation of another caller (`TakesAnotherIff`, `ReservationEndsIff`); see `StopHitsAnother` and
  `CancelHitsAnother`.

Digests, random draws, clocks and the outcome of every I/O operation are parameters of the model,
so the results hold for all of them. Numbers that the code keeps as floating point are exact here.

## Model

| member | source | states |
|---|---|---|
| `SinkConnection.Record` | lab/tcp_sink.py:199-233 | a recorded total is the row afterwards; the generation moves exactly when total or final flag change, and an unmoved generation means an unchanged row |
| `SinkConnection.ConnectionProgress.RecordProgress` | lab/tcp_sink.py:194-236 | the mutable record takes exactly the step `Record`, refuses a decrease and any change of a finalised row without touching it, and emits a receive event exactly when bytes grow |
| `SinkConnection.ConnectionProgress.MarkFlushed` | lab/tcp_sink.py:346-350 | a row is marked clean only when its generation is still the one that was read |
| `SinkConnection.MergedReceiveGap` | lab/tcp_sink.py:238-258 | the reported gap is the widest between neighbouring events, the first of equals, and absent exactly when all gaps are zero |
| `SinkFlush.Progress.FlushProgress` | lab/tcp_sink.py:332-355 | undisturbed, a flush writes exactly when forced or dirty; a failed write changes nothing; a successful one leaves the file equal to memory and nothing dirty |
| `SinkSafety.AttachedKept` | lab/tcp_sink.py:40-84 | every step keeps each connection row in agreement with what its handler has received and decided, and the active set equal to the handlers still running |
| `SinkSafety.TrackedKept` | lab/tcp_sink.py:273-299 | every step, including recording during a flush and failed writes, keeps: a flushed generation equal to the current one means the row on disk is the current row |
| `SinkSafety.MarkKeepsTracked` | lab/tcp_sink.py:346-350 | marking rows after the write is sound although connections may have moved on since they were read |
| `SinkSafety.OrderedKept` | lab/tcp_sink.py:388-434 | every step keeps the order stop, drain, join, set flags, flush; once a finalised snapshot is on disk no step writes again |
| `SinkSafety.EveryRunIsSafe` | lab/tcp_sink.py:388-434 | over every interleaving: no update is lost by the dirty check, a quiesce that reports success has a finalised file, and a finalised file lists every connection ever accepted with its last total and final flag, provided nothing is accepted after the drain |
| `SinkSafety.FinalSnapshotStaysIff` | lab/tcp_sink.py:145-154 | a finalised file never changes again, and over a continuation it stays complete if and only if no further connection is accepted in it |
| `SinkFinal.BreakableIff` | lab/tcp_sink.py:436-439 | in every reachable state with a complete finalised file, some continuation makes it incomplete if and only if the listening socket has not been closed |
| `SinkFinal.ServedAfterQuiesce` | lab/tcp_sink.py:145-154 | a run that quiesces an idle server, writes the final snapshot, then serves and accepts a connection the file does not list |
| `SinkSafety.PromptServingIsSafe` | lab/tcp_sink.py:379-386 | the completeness of a finalised file holds whenever the server loop is not entered again after quiesce found it idle |
| `SinkSafety.RecordNeverRefused` | lab/tcp_sink.py:200-203 | the two runtime errors of `record_progress` are unreachable from the handlers |
| `SinkSafety.SkippedFlushLosesNothing` | lab/tcp_sink.py:343-344 | a flush skipped as clean would have written exactly the rows already on disk |
| `SinkHistory.RowsTellTheRun` | lab/tcp_sink.py:40-84 | over every run, once its handler is gone, a connection's row holds the bytes of all its receives, is final exactly when the end of stream was seen before `quiesce` was called, and shows the first widest pause between its receive events with the byte counts on either side; its published events are exactly its receives |
| `SinkHistory.FinalSnapshotTellsTheRun` | lab/tcp_sink.py:273-317 | the finalised file on disk says the same of every connection |
| `SinkHistory.ShowsOn` | lab/tcp_sink.py:212-222 | the recorded gap moves exactly when the new pause is wider than every pause before it |
| `SinkHistory.NoByteLost` | lab/tcp_sink.py:40-84 | over every run the connections together hold exactly the bytes of all receives, each with its own handler |
| `Enrichment.Accumulate` | lab/result_enrichment.py:924-986 | the loop accepts exactly well-formed connections with distinct ids and returns their byte total and final count |
| `Enrichment.UploadRow.EnrichUploadTargetObserver` | lab/result_enrichment.py:886-1109 | the row is enriched if and only if row and snapshot fit each other; otherwise it is unchanged and the reason given is the first, in the reported order, that holds of it; afterwards observed bytes lie between those confirmed and those accepted, and complete plus failed streams is the expected count |
| `Enrichment.ConsistentMeans` | lab/result_enrichment.py:886-1010 | a row and a snapshot fit if and only if none of the twelve reasons for a refusal holds of them |
| `Enrichment.ExactExactlyWhen` | lab/result_enrichment.py:807-865 | an enriched row is exact if and only if the snapshot is finalised version 2, one final connection per stream, bytes positive and equal to the accepted ones, clean in-band accounting, no observer error, and a probe time that does not round to zero |
| `Enrichment.TooShortToBeExact` | lab/result_enrichment.py:1036-1040 | a row perfect in every other respect is not exact with a probe time of a tenth of a microsecond, and exact with one second |
| `Enrichment.StreamsAddUp` | lab/result_enrichment.py:1021-1031 | complete plus failed streams is the expected count, and complete streams are final ones |
| `Enrichment.VerdictMeans` | lab/result_enrichment.py:1005-1070 | an enriched row is fully confirmed, a lower bound on a loss, or a failure, exactly by what sink and probe say; times are the nearest microseconds, ties to even, and every other field is kept |
| `Enrichment.FailedStreamsMean` | lab/result_enrichment.py:1021-1031 | the failed streams are those without a final connection or those the probe's own accounting speaks against, whichever are more |
| `Enrichment.MicrosIff` | lab/result_enrichment.py:1038-1040 | a time rounds to a count of microseconds if and only if that count is nearest, and even on a tie |
| `Enrichment.OneFaultIsEnough` | lab/result_enrichment.py:807-865 | any one of twelve kinds of fault recorded in a row makes it inexact, and a harmless value in the same field does not |
| `UploadObserver.ExactRowMeansExactRun` | lab/result_enrichment.py:1011-1017 | over every sink run ending in a finalised file, the row is exact if and only if one handler per stream ended naturally and together they received every accepted byte, with clean probe accounting |
| `UploadObserver.ExactRowMeansExactHistory` | lab/result_enrichment.py:1011-1017 | the same verdict read off the steps of the run alone: one accepted connection per stream, each ended before the call to stop, and all receives together the accepted bytes |
| `AckWire.PrintedParses` | lab/bulk_upload_probe.py:214-224 | every acknowledgement the sink prints parses back to itself and holds no newline |
| `AckWire.ParsesIff` | lab/bulk_upload_probe.py:214-224 | a line is read as an acknowledgement if and only if it is its kind and decimal count as two words, with blanks between and any blanks around them |
| `AckWire.LinesSplit` | lab/bulk_upload_probe.py:281-297 | the complete lines of two chunks are those of the first followed by those of its remainder plus the second |
| `UploadStream.ChunkingIrrelevant` | lab/bulk_upload_probe.py:281-297 | consuming two chunks in turn is consuming their concatenation, so results do not depend on how the stream is cut |
| `UploadStream.StreamState.RecordDeliveryProgress` | lab/bulk_upload_probe.py:247-278 | a total moves exactly its increase into the run totals and one interval, is one delivery at its time, counts a stream once, and is refused without effect when it decreases or exceeds what was accepted |
| `UploadStream.StreamState.ConsumeAcknowledgements` | lab/bulk_upload_probe.py:281-297 | the loop over the buffer computes `Consume`, stops where `Stopped` says also on an error, and bytes confirmed by the stream equal bytes added to the run totals |
| `UploadStream.StoppedMeans` | lab/bulk_upload_probe.py:284-295 | consumption stops with exactly the lines counted that come before the first refused one |
| `UploadStream.Totals.Add` | lab/bulk_upload_probe.py:257-278 | every confirmed byte is in exactly one interval, and first and last time and both gaps are those of all deliveries so far |
| `UploadStream.IntervalMeans` | lab/bulk_upload_probe.py:257-278 | a delivery is counted in the interval its time falls into |
| `Deliveries.WidestMeans` | lab/bulk_upload_probe.py:266-273 | the recorded gap bounds every pause that counts, after a failover only those that touch it, and is one of them unless none is positive |
| `UploadRun.StepPreserves` | lab/bulk_upload_probe.py:332-398 | every step of probe, sink and channels keeps what is buffered or in flight a rising run of acknowledgements with at most one partial line |
| `UploadRun.EveryRunAccountsExactly` | lab/bulk_upload_probe.py:332-398 | in every run with totals below 10^124 and any chunk size the decreased, not-accepted, after-final, malformed and too-long errors are unreachable, and a terminal total is every byte accepted before the shutdown |
| `UploadRun.OverlongLineReachable` | lab/bulk_upload_probe.py:296-297 | beyond that bound a run, one byte sent, received and acknowledged at a time, ends in the too-long error |
| `UploadRun.SafeExactlyBelow` | lab/bulk_upload_probe.py:296-297 | no run provokes a protocol error if and only if the byte limit is at most 10^124 |
| `UploadProgress.CanFinishIff` | lab/bulk_upload_probe.py:332-398 | from every reachable state some continuation finishes the stream if and only if it is finished, or the probe still listens and the terminal line has been read, is under way, or the sink can still send it |
| `UploadProgress.AcknowledgementsKeepUp` | lab/tcp_sink.py:58-75 | over every run, between two receives the handler is less than 64 MiB past the total it last decided to acknowledge, the first bytes are acknowledged at once, and until a send fails the probe knows that total once it has read what is pending |
| `ProcessSafety.GuardKept` | src/app.rs:1139-1393 | every step of supervisor, loop, drivers, worker and host keeps: the flag is up wherever the host may publish, and the host has nothing published elsewhere |
| `ProcessSafety.EveryRunProtects` | src/app.rs:627-680 | in every run a VPN the host has published is protected, its worker is not authorised to retire, and cleanup begins only when the worker has ended and nothing is published |
| `ProcessSafety.AbortMeetsPublicationIff` | src/app.rs:627-680 | at every decision to abort: some continuation aborts a published VPN if and only if the loop stood between its check of the request and the store of the flag |
| `ProcessSafety.PromptRunsAbortSafely` | src/app.rs:1047-1056 | in every run whose teardown timeout does not expire in that gap, an abort never meets a published VPN |
| `ProcessSafety.LateFlagRun` | src/app.rs:848-857 | a run in which it does expire there and the abort cuts a published VPN |
| `ProcessSafety.ReleaseIsFinal` | src/app.rs:627-680 | once a shutdown is requested, the flag is down and the loop is not about to raise it, nothing is ever published again |
| `ProcessSafety.RetirementNeedsUnpublish` | src/app.rs:1328-1347 | retirement of a generation is authorised only while nothing is published |
| `ProcessSafety.AuthorizationPath` | src/app.rs:1367-1393 | the only way there is an unpublish that succeeds, then the flag lowered, then the authorisation |
| `ProcessSafety.EveryRunAccounts` | src/app.rs:840-1027 | every clean return leaves no pending revision, and the active revision is the one opened or the last one activated |
| `ProcessSafety.EveryActivationIsEarned` | src/app.rs:1208-1321 | at every step of every run, a generation activates only the revision it runs, which is the desired one, while ready with no shutdown requested and, when managed, as its publication succeeds |
| `ProcessSafety.ActivationIsNeverRolledBack` | src/app.rs:1494-1541 | within one store the activation log only grows and the active revision changes only with it |
| `ProcessRounds.EveryRoundRunsActiveOrCandidate` | src/app.rs:848-886 | over every run a running generation runs the active revision, or the pending one that it has yet to prove, and a stop request is never met by a ready one |
| `ProcessRounds.FailedCandidateFallsBack` | src/app.rs:856-962 | over every run a pending revision whose round ends badly before it is activated is rolled back, and the next round runs the revision that was active; the process ends only if the rollback cannot be stored |
| `ProcessRounds.SuccessActivates` | src/app.rs:1208-1321 | over every run a generation that becomes ready, or whose publication succeeds, with nothing in the way runs the active revision from then on; a candidate becomes active there, once |
| `ProcessRounds.ReloadRunsDesired` | src/app.rs:914-938 | over every run a round stopped for a reload is followed by one with the desired revision |
| `ProcessRounds.ShutdownReturns` | src/app.rs:907-921 | over every run a round that ends for shutdown returns cleanly with nothing pending, or with an error if the rollback cannot be stored |
| `ProcessRounds.JudgeMeans` | src/app.rs:886-997 | when each of next round, restart, clean and failing return follows the end of a round, and the store each leaves |
| `ConfigStore.Replace` | src/config/store.rs:282-345 | a replacement becomes the desired revision and leaves the active one, keeping the pair consistent |
| `ConfigStore.RollbackPending` | src/config/store.rs:385-412 | a rollback clears what is pending, restores the active document and never changes the active revision |
| `ConfigStore.CanonicalConfigStore.ActivateReadyGeneration` | src/app.rs:1494-1518 | activation succeeds only for the desired or already active revision and otherwise changes nothing |
| `ConfigStore.CanonicalConfigStore.RollbackUnactivatedDesired` | src/app.rs:1520-1529 | success leaves desired equal to active; failure leaves the store as it was with its pending revision |
| `ConfigStore.CanonicalConfigStore.RollbackFailedCandidate` | src/app.rs:1531-1541 | only the candidate still pending is rolled back, and to the active revision |
| `Statistics.MedianNegated` | lab/performance_ledger.py:805-806 | negating a sample negates its median |
| `OrderStatistics.MedianIff` | lab/performance_ledger.py:805-806 | a number is the median if and only if it is the middle order statistic, or the mean of the two middle ones, found by counting how many values are smaller and how many at most as large |
| `OrderStatistics.MedianMeans` | lab/performance_ledger.py:805-806 | the median is that number, and at least half of the values are on either side of it |
| `Statistics.PercentileMonotone` | lab/performance_ledger.py:715-729 | on sorted values the interpolated percentile grows with the probability |
| `OrderStatistics.PercentileIff` | lab/performance_ledger.py:715-729 | a number is the percentile if and only if it is the weighted mean of the two order statistics next to its position |
| `Statistics.PercentileMirrored` | lab/performance_ledger.py:715-729 | the percentile of the mirrored values is the negated percentile of the complementary probability |
| `Bootstrap.Resample` | lab/performance_ledger.py:801-804 | the inner loop draws the specified sample and state |
| `SplitMix64.MixInjective` | lab/performance_ledger.py:732-739 | different 64-bit states draw different values |
| `Bootstrap.LedgerDrawsDistinct` | lab/performance_ledger.py:732-739 | from every seed the first 2^64 draws are pairwise different |
| `Bootstrap.PairedBootstrapInference` | lab/performance_ledger.py:791-826 | the nested loops compute the specified inference, refuse exactly empty deltas and invalid contracts, and the result is described by the medians of the drawn samples: the interval are their percentiles, the statistic is the median of the deltas, and the verdict is the side of zero the interval is on |
| `Bootstrap.InferenceMeans` | lab/performance_ledger.py:791-826 | every inference: one median per iteration, each of a sample drawn from the deltas by successive draws, and interval, statistic and verdict as above |
| `Bootstrap.IntervalWithin` | lab/performance_ledger.py:791-826 | for every generator and seed: least delta <= lower <= upper <= greatest delta |
| `Bootstrap.InferenceMirrors` | lab/performance_ledger.py:791-826 | negating every delta mirrors the interval to [-upper, -lower] and exchanges regression and improvement |
| `Bootstrap.SwappingMirrors` | lab/performance_ledger.py:1356-1362 | swapping candidate and reference does the same, in either direction of the metric |
| `Bootstrap.UniformDeltasClassified` | lab/performance_ledger.py:776-781 | all-positive, all-negative and all-zero deltas are an improvement, a regression and an exact equivalence |
| `LedgerRecords.ChampionHistoryIsExact` | lab/performance_ledger.py:1216-1257 | the validator's checks on a champion history hold if and only if it is the chained list of promoted accepted records, in order |
| `LedgerRecords.LastChampionIsActive` | lab/performance_ledger.py:1232-1257 | the last champion record names the last promoted decision |
| `LedgerValidation.ValidateAccepted` | lab/performance_ledger.py:1193-1215 | the loop accepts exactly valid, chained, parent-linked records with fresh decision ids |
| `LedgerValidation.ValidateChampions` | lab/performance_ledger.py:1216-1231 | the loop accepts exactly linked champion records with rising accepted sequences |
| `LedgerValidation.ValidateCursor` | lab/performance_ledger.py:1232-1257 | the champion cursor accepts exactly when promoted decisions and champion records correspond and every later decision names the champion active before it |
| `LedgerValidation.ValidateLedger` | lab/performance_ledger.py:1125-1260 | validation succeeds if and only if the ledger is well formed: exact champion histories, correct references, unique ids, strictly ascending keys, matching baseline |
| `LedgerOperations.RegisterKeepsOrder` | lab/performance_ledger.py:1270-1335 | a registration that is not refused turns a valid ledger into a valid one |
| `LedgerOperations.AcceptingKeepsEntry` | lab/performance_ledger.py:1500-1534 | appending a fitting decision, and its champion record when promoted, keeps a cell valid |
| `LedgerRuns.CompareKeeps` | lab/performance_ledger.py:1365-1537 | a comparison that is not refused keeps the ledger valid, only appends, and changes it if and only if it commits a PASS or an approved tradeoff |
| `LedgerRuns.EveryStateIsValid` | lab/performance_ledger.py:1125-1260 | every ledger reached from an empty one by registering and comparing passes the validator |
| `LedgerRuns.HistoriesAppendOnly` | lab/performance_ledger.py:1365-1537 | between any two points of a run every cell is kept and its histories only had records appended |
| `LedgerRuns.TradeoffKeepsChampion` | lab/performance_ledger.py:1010-1032 | in a valid ledger an approved tradeoff leaves the champion and the champion history in place |
| `LedgerRuns.PerformanceLedger.RegisterChampion` | lab/performance_ledger.py:1270-1353 | the object validates, appends, sorts and validates again, and the closing validation never fails |
| `LedgerRuns.PerformanceLedger.CompareCandidate` | lab/performance_ledger.py:1365-1537 | the object is changed exactly as specified, and the closing validation never fails |
| `LedgerVerdicts.UniformComparisonOutcome` | lab/performance_ledger.py:1406-1470 | of every comparison that is not refused: a candidate better than parent and champion on every pair passes and is promoted, one worse than either on every pair fails, better or tied with the parent while tied with the champion passes without promotion, tied with the parent and better than the champion is promoted; better is as the metric's direction says |
| `LedgerVerdicts.ComparisonOutcome` | lab/performance_ledger.py:1420-1470 | status and promotion of every comparison follow from the two intervals of the candidate's gains over parent and champion |
| `LedgerVerdicts.ApprovedComparisonOutcome` | lab/performance_ledger.py:1440-1470 | with an approval the outcome is a tradeoff that never promotes, only for the approved comparison, and only where something regressed |
| `LedgerVerdicts.CommittedComparisonRecords` | lab/performance_ledger.py:1500-1537 | a committed comparison appends one decision to the one cell it names, with the candidate, the medians of its values and of its gains over both subjects, and a champion record exactly when promoted |
| `LedgerVerdicts.RegistrationRecords` | lab/performance_ledger.py:1270-1353 | a registration inserts one cell with one promoted decision and its champion record, holding the median of the registered values, and keeps every other cell |
| `LedgerVerdicts.LastHashPinsHistory` | lab/performance_ledger.py:1193-1215 | valid accepted histories that end in the same hash are the same, unless two of their decisions collide |
| `Migrate.CanonicalizeSettles` | src/android.rs:848-923 | canonicalising one material leaves nothing of it to canonicalise and touches no other field; what becomes of its value is `MigrateMeaning.CanonicalizeCarries` |
| `MigrateMeaning.CanonicalizeCarries` | src/android.rs:848-923 | a material the table holds in any known form is afterwards the managed reference of its own id under its own key, its legacy key is gone, and every other key keeps its value |
| `Migrate.MaterialsSettle` | src/android.rs:944-1025 | after the recursive migration every table of the tree is settled |
| `Migrate.SettledFixed` | src/android.rs:944-1025 | a settled tree is left exactly as it is |
| `MigrateEditor.RoutingActionsDone` | src/android.rs:1182-1257 | after the routing migration no rule has an action |
| `MigrateEditor.InsertMarkerSettled` | src/android.rs:1123-1180 | inserting the transport marker keeps the tree settled and either changes nothing or makes the reference counted |
| `MigrateEditor.EditorIdempotent` | src/android.rs:1272-1280 | a second migration succeeds and changes nothing, also when a foreign transport secret blocks insertion |
| `MigrateEditor.EditorLeavesNoLegacy` | src/android.rs:1272-1280 | after a successful migration no routing action and no legacy material remains anywhere in the document |
| `MigrateMeaning.EditorLosesNothing` | src/android.rs:1272-1280 | throughout the document every material is kept as its managed reference and every other value but a routing action is kept in its place, and nothing is added but those references, decisions and the transport marker |
| `MigrateMeaning.RuleKeepsEffect` | src/android.rs:1182-1257 | a rule is migrated if and only if it has no action, or a well-formed one and no decision; the migrated rule routes, balances, rejects or drops as before and keeps its other fields |
| `MigrateMeaning.EditorKeepsRouting` | src/android.rs:1182-1257 | after migration every routing rule of the document does what it did before |
| `MigrateMeaning.EditorServesTransport` | src/android.rs:1123-1180 | after migration a managed transport reference exists, or the one owner of the managed pin has a transport field of its own |
| `PatchPaths.AssignmentInjective` | src/android.rs:1282-1341 | no old path entry is carried over to two projected paths |
| `PatchPaths.PatchedKeeps` | src/android.rs:1316-1338 | a patched path has the projected name and endpoint, at its projected position, and every other field of the entry it took |
| `PatchPaths.ReuseIsMaximal` | src/android.rs:1293-1315 | for each name, as many same-named old entries are reused as the smaller of the old and the projected count |
| `PatchPaths.Reserve` | src/android.rs:1292-1313 | the search loops make exactly the specified reservations |
| `PatchPaths.ReplacePaths` | src/android.rs:1314-1340 | the loop with its claimed set builds exactly the specified paths |
| `Projection.WithFirstKeepsOthers` | src/android.rs:501-510 | replacing the selected table leaves every other table of the array where it was |
| `RoundTrip.PathsRoundTrip` | src/android.rs:620-645 | projecting patched paths gives the projected paths back |
| `RoundTrip.AdvancedRoundTrip` | src/android.rs:647-718 | advanced numbers written by the patch, or removed by it, are projected back |
| `RoundTrip.ProjectAfterPatch` | src/android.rs:1439-1496 | projecting a patched document returns the projection if and only if target resolution is stated and no other credential has the projected id |
| `RoundTrip.SilentTargetIsLost` | src/android.rs:1439-1496 | a document and a projection without target resolution that is not read back |
| `RoundTrip.TakenIdIsLost` | src/android.rs:1450-1463 | a document in which renaming the credential to a taken id makes the result unreadable |
| `RoundTrip.OutboundFrame` | src/android.rs:1343-1388 | outside the edited keys the outbound, its security and its performance tables are unchanged |
| `RoundTrip.CredentialFrame` | src/android.rs:1450-1463 | outside the edited keys the credential is unchanged; what stands at the edited ones is `PatchMaterials.PatchManages` |
| `RoundTrip.RestFrame` | src/android.rs:1390-1437 | outside the edited keys the session, resources, routing and logging tables are unchanged |
| `RoundTrip.PatchFramed` | src/android.rs:1439-1496 | a patch changes one outbound and one credential; at every key of these, of their nested tables and of the session, resources, routing and logging tables only what is edited differs, and every other table stays where it was, whole |
| `RoundTrip.SavedDocumentProjects` | src/android.rs:1439-1496 | for everything the editor can save, the round trip and that whole frame hold against the migrated document |
| `PatchMaterials.PatchManages` | src/android.rs:1450-1489 | in every patched document the selected outbound's security holds the managed pin and transport references and the selected credential the managed secret, none beside its legacy key, both under the projected credential id |
| `UniqueKeysKept.SavedDocumentUnique` | src/android.rs:1439-1496 | what the editor saves has unique keys in every table if the document it started from has |
| `Finalize.FinalizedFieldsMeans` | src/android.rs:1670-1741 | the traversal succeeds exactly on well-placed references, equals a plain substitution, and counts each reference once although values are inspected again on descent |
| `Finalize.FinalizedMeans` | src/android.rs:1743-1775 | the same for values and arrays, where an optional reference cannot be dropped |
| `Finalize.DocumentFinalized` | src/android.rs:1608-1786 | finalising succeeds if and only if references are well placed and each of the three occurs once; no reference is left |
| `PatchMaterials.SavedDocumentFinalizesIff` | src/android.rs:1608-1786 | a document the editor saved, with unique keys as every parsed one has, can be finalised if and only if nothing in it but the three references it wrote is managed |
| `PatchMaterials.MaterialsInPlace` | src/android.rs:1670-1741 | in the finalised document secret, pin and transport secret are the bound contents, each in its own place, and an unbound transport secret is gone |
| `Finalize.SubstIdentity` | src/android.rs:1743-1775 | where nothing is managed nothing is changed |
| `AndroidBridge.SharedStatus.TransitionToReady` | src/android.rs:174-186 | readiness is published only from Starting |
| `AndroidBridge.SharedStatus.TransitionToStopping` | src/android.rs:190-206 | stopping is entered only from Starting or Ready, so a terminal result is never overwritten |
| `AndroidBridge.StepOrderly` | src/android.rs:1934-2140 | every step of host threads and workers keeps the bridge orderly and lets each runtime's phase only advance |
| `AndroidBridge.EveryRunIsOrderly` | src/android.rs:1934-2050 | in every run a registered runtime and a reservation never coexist, at most one worker is alive, and a published result is terminal |
| `AndroidBridge.NeverReadyAfterStopping` | src/android.rs:162-206 | once a runtime is stopping or terminal it is never ready again |
| `AndroidBridge.RunOrderly` | src/android.rs:2052-2119 | a runtime whose worker has published its last status never changes again |
| `AndroidBridge.TakesAnotherIff` | src/android.rs:2190-2202 | the runtime a stop unregisters is another than the one it stopped if and only if one was started since; its worker has ended by then |
| `AndroidBridge.ReservationEndsIff` | src/android.rs:1946-1951 | a pending reservation ends if and only if some caller, not only its owner, cancels or registers |
| `AndroidBridge.RegistersIff` | src/android.rs:1976-2019 | registration succeeds if and only if some reservation is pending and the thread spawns |
| `BridgeCalls.LastStatusTells` | src/android.rs:2052-2119 | over every run a worker's last status is Stopped if and only if it returned without an error, and Failed otherwise |
| `BridgeCalls.AnswersAreEarned` | src/android.rs:1934-2202 | over every run a start succeeds only when its runtime is seen ready and a stop only when nothing is registered any more; both fail only when the bridge is taken or the call is given up; no step answers another caller |
| `BridgeCalls.ReservesIff` | src/android.rs:1934-1944 | over every run a start is let in if and only if nothing is reserved and no worker is alive |
| `BridgeCalls.StopReaches` | src/android.rs:2142-2160 | over every run a stop that finds a live worker leaves its runtime stopping or terminal and waits for that runtime |
| `AndroidBridge.CancelHitsAnother` | src/android.rs:1946-1951 | a run in which a failed start cancels the reservation of another caller |
| `AndroidBridge.StopHitsAnother` | src/android.rs:2190-2202 | a run in which a stop unregisters a runtime that nobody asked to stop |
| `NetemSeed.PermutedIsBijection` | lab/internet_condition_schedule.py:380-394 | for every round function the six Feistel rounds have an inverse on 32-bit words |
| `NetemSeed.NetemSeedFor` | lab/internet_condition_schedule.py:366-403 | the loop computes the seed of a coordinate in at most two applications of the permutation |
| `NetemSeed.SeedsDistinct` | lab/internet_condition_schedule.py:366-403 | seeds are non-zero and equal if and only if epoch, direction and path are |
| `Tokens.PercentPpm` | lab/internet_condition_schedule.py:283-292 | a token is accepted only as the canonical spelling of a value in range |
| `Tokens.PercentRoundTrip` | lab/internet_condition_schedule.py:274-292 | printing and parsing a percentage gives it back |
| `Tokens.UnitRoundTrips` | lab/internet_condition_schedule.py:295-304 | times and positive rates survive printing and parsing |
| `Tokens.UnitParsersCanonical` | lab/internet_condition_schedule.py:295-304 | only canonical time and rate tokens are accepted |
| `Schedule.RankedPathsPermutes` | lab/internet_condition_schedule.py:307-324 | ranking is a permutation of the paths |
| `Schedule.StrataFormPermutation` | lab/internet_condition_schedule.py:327-340 | per epoch and direction every stratum is used by exactly one path; which one is `ScheduleMeaning.StrataFollowDraws` |
| `Schedule.DrawNumbers` | lab/internet_condition_schedule.py:406-460 | every drawn number is within the bounds of its stratum; which number is `ScheduleMeaning.NumbersDrawn` |
| `Schedule.RenderRows` | lab/internet_condition_schedule.py:406-483 | the loop renders exactly one specified row per path; what it says is `ScheduleMeaning.RenderedRowMeans` |
| `ScheduleMeaning.NumbersDrawn` | lab/internet_condition_schedule.py:406-460 | each number is in the bounds of its stratum and congruent to the draw at its own epoch, direction, path and field modulo their width; jitter is also bounded by the delay, a correlation is drawn only where what it correlates is there, and an outage loses everything |
| `ScheduleMeaning.StrataFollowDraws` | lab/internet_condition_schedule.py:307-340 | strata are dealt in the order of the ranking draws, ties to the earlier path |
| `ScheduleMeaning.OutageFollowsDraws` | lab/internet_condition_schedule.py:343-363 | the outage of an epoch is the row with the least outage draw, ties by direction and path |
| `ScheduleMeaning.SeedWalks` | lab/internet_condition_schedule.py:366-403 | a seed is reached from its coordinate's ordinal by six rounds that exchange the halves and mix, bit by bit, the draw of that round, walked on past zero |
| `ScheduleMeaning.RenderedRowMeans` | lab/internet_condition_schedule.py:406-483 | every rendered row: its place, its stratum, the numbers its tokens parse to, its seed and its outage are those of the draws, as above |
| `ScheduleDocument.RenderedRowPasses` | lab/internet_condition_schedule.py:539-612 | every rendered row re-parses and passes the row validator |
| `ScheduleDocument.ValidatesExactlyBuilt` | lab/internet_condition_schedule.py:615-664 | a document validates if and only if it is what the builder makes of its own seed, topology and options |
| `ScheduleDocument.ScheduleSeedsDistinct` | lab/internet_condition_schedule.py:498-536 | all seeds of a built schedule are distinct |
| `ScheduleDocument.OneOutagePerEpoch` | lab/internet_condition_schedule.py:343-363 | with outages enabled each epoch has exactly one outage row, otherwise none |
| `ScheduleDocument.RowsForReplays` | lab/internet_condition_schedule.py:720-736 | selecting the rows of a coordinate equals rendering them |
| `OffsetRanges.Insert` | src/mux/stream.rs:1125-1161 | inserting a range adds exactly its offsets and keeps the ranges ordered with gaps between them |
| `OffsetRanges.Covers` | src/mux/stream.rs:1163-1168 | a span is covered if and only if every offset of it is |
| `OffsetRanges.Uncovered` | src/mux/stream.rs:1170-1198 | the returned ranges are exactly the offsets of the span not yet received |
| `OffsetSets.RangesAreIslands` | src/mux/stream.rs:1092-1123 | the number of ranges is the number of islands of received offsets |
| `RecvStream.Drain` | src/mux/stream.rs:870-874 | draining delivers the contiguous buffered bytes and stops at the first gap |
| `ReceivePreviews.RangeCountAfterInsert` | src/mux/stream.rs:1096-1123 | the previewed count is the number of islands the insertion would leave |
| `ReceivePreviews.ChunkCountAfterReceive` | src/mux/stream.rs:943-969 | the previewed count is the number of chunks left in the buffer once the frame is filed and everything contiguous delivered |
| `RecvStream.Admit` | src/mux/stream.rs:840-906 | a frame is refused if and only if it is not covered and exceeds, as sets of offsets, the limit on islands or, unless new throughout at the frontier, on reorder bytes or pieces; the error names a limit exceeded |
| `RecvStream.ReliableRecvStream.ReceiveData` | src/mux/stream.rs:821-941 | a frame is accepted if and only if `Accepts` holds; it then adds exactly its offsets, what is delivered continues the stream up to the first missing byte without gap or repetition, and the buffered pieces are those beyond it; an error changes nothing |
| `SendStream.ReliableSendStream.SendData` | src/mux/stream.rs:129-244 | a payload is sent exactly when it fits credit and cache, at the next offset, and is then retained |
| `SendStream.ReliableSendStream.ApplyAck` | src/mux/stream.rs:273-355 | an acknowledgement is applied if and only if its ranges are non-empty and assigned and no more pieces are left than allowed; exactly the acknowledged offsets leave the cache, and the byte count drops by their number |
| `SendStream.ReliableSendStream.FirstRetransmission` | src/mux/stream.rs:471-490 | a frame is offered exactly when a retained byte is in range; it starts at the first one, comes from one write, and is cut short only by the limit, the range or its chunk |
| `StreamRun.EveryRunIsReliable` | src/mux/stream.rs:821-941 | over every loss, repetition, reordering and re-slicing: delivery is a prefix of what was written, every byte is received or retained, credit and the receiver's limits are never exceeded, and an empty cache means all was delivered |
| `StreamRun.ReceiveRefinesArrive` | src/mux/stream.rs:821-941 | the receiver takes a frame if and only if the abstract step is possible, and has its effect |
| `StreamRun.SendRefinesWrite` | src/mux/stream.rs:129-244 | sending is the abstract write, and its frame is on the paths |
| `StreamRun.ApplyAckRefinesAckArrives` | src/mux/stream.rs:273-355 | applying an acknowledgement is its abstract arrival, or changes nothing |
| `StreamRun.RetransmissionRefinesRetransmit` | src/mux/stream.rs:471-490 | every frame offered is an abstract retransmission within the range, and none is offered exactly when nothing there is retained |
| `StreamRecovery.StuckForGood` | src/mux/stream.rs:851-906 | once nothing was delivered, all range slots are taken and no gap fits the free reorder buffer, no continuation ever delivers anything |
| `StreamProgress.RecoverableIff` | src/mux/stream.rs:851-906 | in every reachable state some continuation delivers everything written if and only if the receiver is not stuck |
| `StreamProgress.GetsStuckIff` | src/performance.rs:147-161 | for all limits: some run gets stuck if and only if the range limit is at most the reorder byte limit and the reorder piece limit |
| `StreamProgress.OneByteBlocks` | src/mux/stream.rs:851-906 | with every limit at 1, the byte at offset 5 arriving first leaves a stream of six bytes unrecoverable |

## Left out

- Sockets, select loops, timers, signals, thread creation and file systems: they appear only as choices of the environment.
- Floating-point rounding: statistics and durations are exact numbers; only the rounding of row times to microseconds is modelled.
- SHA-256, Base64, JSON and TOML text, comments and decoration: digests are unknown functions and documents are trees.
- JNI entry points, log sinks, command-line parsing and error display: no logic of their own.
- The scheduler, datagrams, frame codec, transports and congestion control: not part of this model.
- HTTP, UDP and SOCKS probes, SVG rendering, result summaries and manifests: each formats or forwards one record at a time and keeps no state between them, so none of the properties above depends on them.
- SinkConnection.MergedReceiveGap: takes the events already sorted, as the library sort leaves them.
- SinkSafety.EveryRunIsSafe: a failure to spawn a handler is taken to mean that no handler started, and signals that interrupt the serving thread are not modelled.
- Enrichment.UploadRow.EnrichUploadTargetObserver: goodput, connection summaries and receive-gap fields are validated but not carried into the row.
- ProcessSafety.EveryRunProtects: what the host does with a prepared generation that is dropped by an abort is not modelled; a preparation that yields nothing or fails is taken to certify that nothing is published, as the code states.
- ProcessSafety.EveryRunAccounts: restart counts and back-off delays are a choice of the environment, and documents are identified with their revisions.
- LedgerValidation.ValidateLedger: records are typed, so field presence, identifier syntax and digest spelling are not modelled; the three fields of a reference come together.
- LedgerRuns.PerformanceLedger.CompareCandidate: evidence arrives with its pairs sorted by id, as normalisation leaves it, and keys are compared as numbers.
- MigrateEditor.EditorIdempotent: keys and strings are numbered rather than spelled out.
- RoundTrip.ProjectAfterPatch: the defaults of advanced settings are a parameter, and numbers are exact.
- Finalize.DocumentFinalized: the SOCKS port and local authentication that follow in `finalize_editor` are not modelled.
- AndroidBridge.EveryRunIsOrderly: statistics, last-error text and the log sink are not modelled.
- RecvStream.ReliableRecvStream.ReceiveData: frames are slices of the sender's stream, and the marks that select ranges for the next acknowledgement are not modelled.
- StreamRun.EveryRunIsReliable: the sender's own payload and cache limits are proved of `SendData` and leave more runs here; a refused frame leaves both ends as they were, although the caller may then give up the stream.
- SendStream.ReliableSendStream.ApplyAck: ranges are applied one by one without merging them first, and the scope of negative evidence is not modelled.
- SendStream.ReliableSendStream.SendData: taking back a frame that was committed but not queued is not modelled.
