# Verified model of the reconciliation ingestion pipeline

This project models how a partner file becomes rows in the partner transaction table, and proves
what that pipeline keeps, row by row and over whole runs, under failures, bounded concurrency and
replay. It has four parts.

**The ingestion run.** `TransactionTable` is the table behind the unique `(identify,
ingestion_key)` constraint; `SetBasedWrite` is the PostgreSQL adapter's one-statement batch write,
proved equal to inserting row by row. `BatchWriter` bounds concurrent writes: at most
`workers - 1` stay pending, and a drain lets them commit in any order or break off at any of them,
after which any of the writes that nobody waits for may still commit.
`RunState`, with its laws in `Accounting`, `Quality` and `StageClock`, holds the counters, the
error sample, the disposition and the stage clock. `RowBatches` is the row loop with its two
buffers, and `RowBatchGuarantees` states what a whole run of it guarantees. `FileClaim` is the
claim protocol as atomic steps of any number of workers, and `IngestionRun` is the path from claim
to terminal status with a failure possible at every step.

**Pagination.** `Pagination` is the cursor loop of the API fetcher, `PaginationLaws` its whole-run
properties: chains, exactly when a fetch succeeds, resumption, cycles.

**Normalization and the file gate.** `Normalizer` turns one source row into canonical values,
`TransactionBuilder` holds the fast and the canonical builder, `RowProcessor` goes on to
validation and the ingestion key. `QualityGate` is the static gate, and `GateSoundness` says what
it promises the column resolver.

**The quality profile.** `QualityScan` is the scanning loop, `QualityScanLaws` says what its row
sets mean, `ColumnObservations` counts distinct values up to a limit, and `QualityVerdict`
compares the per-rule results with the overall decision.

Where the environment decides (which write raises, which rows a repository refuses, in which order
pending writes commit, when a reader breaks off), the methods choose nondeterministically, so the
contracts hold for every choice. Ghost fields record what was handed to the table and to
quarantine; no decision depends on them. Every lemma switches automatic induction off, so each
inductive step is written out.

## Where the code does less than it seems to promise

These are theorems of the model, with the exact condition under which the expected property holds.

- Replay restores the uninterrupted table, whatever aborted runs committed and in whatever order,
  exactly when the rows of the file agree on every key that is new to the table; so does every
  commit order of several writers (`ReplayIsExactFor`, `OrderNeverShows`). Otherwise a key keeps the
  payload that committed first (`FailingReplay`). The keys and the number of inserted rows agree
  always (`ReplayConverges`), and with one writer so does the table (`IngestWithReplay`).
- A duplicate claim leaves the file record alone unless logging the duplicate raises: the failure
  handler then marks the record of the other run FAILED (`ProcessFile`, `DuplicateMarkedFailed`).
  That would let a third run claim the file beside the first (`ForeignFailureBreaksExclusion`).
- A run that fails between the claim and its return reports FAILED but leaves the record in
  PROCESSING, because the handler does not know the record yet (`ProcessFile`,
  `FailedLeftInProcessing`).
- Chained single-unit fetches never notice a cursor cycle; the paginated loop does
  (`SingleUnitsFollowCycles`, `CyclesAreCaught`).
- Without configured paths a page never parses, because items and cursor are then read from the
  same place (`DefaultPathsNeverParse`).
- The two builders part on a `timestampBasis` that is mapped as a decimal or a date, and on a
  `transDate` that is not mapped as a date (`FastRefinesCanonical`, `DecimalBasisPartsBuilders`,
  `OtherDatesPartModes`).
- The gate vouches for columns only if it knows the width of the file, and accepts source-field
  mappings that never resolve on rows of cells (`NoWidthNoPromise`,
  `SourceFieldsNeverResolveOnCells`).
- The two quality verdicts part when the timestamp or amount column is configured with an empty
  name (`DecisionFailsExactly`, `EmptyColumnNamePartsVerdicts`).
- Deriving an ingestion key never falls back to the trace and never raises: validation has already
  refused a blank id (`KeyIsTheId`).

## Model

| member | source | states |
|---|---|---|
| `TransactionTable.FirstWinsIsUnique` | alembic/versions/0002_ingestion_idempotency.py:56-60 | inserting rows one by one and skipping present keys is the only table in which old rows survive and every new key keeps the payload of its first row |
| `TransactionTable.CommitOrderKeepsKeys` | src/pipeline/batch_writer.py:59-75 | the key set and the number of rows do not depend on the commit order |
| `TransactionTable.OrderNeverShows` | src/pipeline/batch_writer.py:59-75 | every commit order of some rows leaves the same table exactly when rows that share a key new to the table have equal payloads |
| `TransactionTable.ReplayConverges` | src/pipeline/file_claim.py:99-107 | after any aborted runs over rows of the file, a full run reaches the keys of one uninterrupted run, and all runs together inserted exactly the distinct new keys |
| `TransactionTable.ReplayIsExactFor` | src/pipeline/file_claim.py:99-107 | replay restores the table of one uninterrupted run for all runs aborted before it exactly when rows of the file that share a new key have equal payloads |
| `TransactionTable.FailingReplay` | src/pipeline/batch_writer.py:59-75 | a concrete file and aborted run after which replay leaves another table |
| `TransactionTable.LateCommitsKeepKeys` | src/pipeline/batch_writer.py:69-75 | once every row of the file is committed, in whatever order and however often, the keys are those of one uninterrupted run |
| `TransactionTable.LateCommitsKeepTable` | src/pipeline/batch_writer.py:69-75 | and so is the table if rows that share a new key agree |
| `TransactionTable.PrefixRunsReplayExactly` | src/pipeline/row_batch_coordinator.py:143-211 | aborted runs that each committed a prefix of the file are undone by replay whatever the payloads are |
| `TransactionTable.WriteAccounting` | src/infrastructure/partner_transaction/repository.py:299-408 | every row of a batch is inserted, a duplicate or failed, and the table grows by the inserted ones |
| `TransactionTable.WriteAbsorbs` | src/infrastructure/partner_transaction/repository.py:175-228 | the table after a batch is the insertion of exactly the rows not reported failed, in order |
| `SetBasedWrite.SetBasedIsRowByRow` | src/infrastructure/partner_transaction/repository.py:85-140 | the set-based statement and its classification report the same table, inserted count and duplicates, up to order, as writing row by row |
| `SetBasedWrite.AllSkippedAreDuplicates` | src/infrastructure/partner_transaction/repository.py:335-400 | the rows classified as skipped are exactly the duplicates, each once, whatever the order of the conflict keys |
| `Quality.AdvanceIsRecount` | src/pipeline/run_state.py:374-388 | advancing the disposition by one outcome equals recounting it from the outcome counts |
| `Quality.SummaryAgrees` | src/domain/ingestion/quality.py:169-204 | when the summary recomputed from rule and outcome counts gives the same decision and action as the outcome counts alone |
| `Accounting.RecordAdds` | src/pipeline/run_state.py:105-151 | recording an event adds a contribution that does not depend on what was counted before |
| `Accounting.OrderIndependence` | src/pipeline/run_state.py:276-323 | every permutation of recorded rows, evaluations and batch results ends with the same counters, decision and action |
| `Accounting.IncrementalDisposition` | src/pipeline/run_state.py:374-388 | after any events the incremental decision and action equal those recomputed from the outcome counts |
| `Accounting.DetailsCounted` | src/pipeline/run_state.py:281-322 | each duplicate detail is counted once, as equivalent or conflicting |
| `Accounting.CountersStayConsistent` | src/pipeline/run_state.py:85-151 | failed rows are rejected plus persistence-failed rows, and duplicate counters equal the duplicate outcomes, over every run without merged summaries |
| `StageClock.StagesFitInRun` | src/pipeline/run_state.py:208-220 | under a monotone clock the stage durations sum to at most the run duration at each finish of the run |
| `StageClock.ClockInvariant` | src/pipeline/run_state.py:173-176 | recorded stage intervals follow one another and the durations per stage are their lengths |
| `StageClock.SequentialDisjoint` | src/pipeline/run_state.py:173-215 | no two recorded intervals overlap |
| `RunState.IngestionRunState.AddError` | src/pipeline/run_state.py:153-160 | the error sample stays bounded, and sample plus dropped count equals the error count |
| `RunState.IngestionRunState.RecordQuality` | src/pipeline/run_state.py:128-151 | quality counters and disposition after one outcome |
| `RunState.IngestionRunState.AdvanceDisposition` | src/pipeline/run_state.py:374-388 | the disposition without recounting |
| `RunState.IngestionRunState.RecordRowOutcome` | src/pipeline/run_state.py:105-119 | counters, errors and ingestion keys after one row |
| `RunState.IngestionRunState.RecordBatchResult` | src/pipeline/run_state.py:276-323 | row counters, quality counters and errors after one batch result |
| `RunState.IngestionRunState.ShouldLogRowError` | src/pipeline/run_state.py:162-167 | at most five row failures are logged |
| `RunState.IngestionRunState.RecordAll` | src/pipeline/run_state.py:85-151 | a fresh state fed any events holds exactly the recorded counters, and the decision and action recounted from them |
| `RunState.IngestionRunState.FinishRun` | src/pipeline/run_state.py:217-220 | closes the open stage and stores a non-negative duration |
| `BatchWriter.PartnerTransactionWriter.InsertMany` | src/infrastructure/partner_transaction/repository.py:299-408 | the repository port: commits the batch atomically and reports it truly, or raises, before the commit or, in the lookup of what the batch met, after it |
| `BatchWriter.BatchWriteCoordinator.WriteBatch` | src/pipeline/batch_writer.py:22-49 | a result that passes the accounting check reports exactly the duplicates of the write, each once, with the payload the table holds and, on a conflict, the context of the very row that conflicted |
| `BatchWriter.BatchWriteCoordinator.Drain` | src/pipeline/batch_writer.py:69-75 | in every commit order the results match their writes and stay true of the table, reported inserts are its growth, and the absorbed rows are the submitted ones unless rows failed |
| `BatchWriter.BatchWriteCoordinator.LeaveBehind` | src/pipeline/batch_writer.py:74-75 | writes that nobody waits for any more may commit or not, in any order, and bring only submitted rows |
| `BatchWriter.BatchWriteCoordinator.Submit` | src/pipeline/batch_writer.py:51-67 | fewer than `workers` writes stay pending; one worker writes at once and in order |
| `BatchWriter.PartsCount` | src/pipeline/batch_writer.py:37-41 | absorbed rows plus reported failures equal the rows submitted |
| `RowBatches.QuarantineWriter.CreateMany` | src/pipeline/row_batch_coordinator.py:89-101 | the quarantine port: raises or reports how many records it stored |
| `RowBatches.RowsSplit` | src/pipeline/row_processor.py:37-43 | every row that is transformed becomes one buffered container or one reject |
| `RowBatches.ContextsAlign` | src/pipeline/row_batch_coordinator.py:173-179 | the k-th container and the k-th context come from the same source row |
| `RowBatches.RowBatchCoordinator.FlushQuarantine` | src/pipeline/row_batch_coordinator.py:89-101 | records are handed over once and the returned count is added |
| `RowBatches.RowBatchCoordinator.ConflictsToQuarantine` | src/pipeline/row_batch_coordinator.py:244-291 | one record per conflicting duplicate, in order |
| `RowBatches.RowBatchCoordinator.RecordResults` | src/pipeline/row_batch_coordinator.py:231-242 | results are counted in order and their conflicts handed to quarantine, up to the first failure |
| `RowBatches.RowBatchCoordinator.FlushBatch` | src/pipeline/row_batch_coordinator.py:213-234 | a flushed batch is submitted once; settled results are all recorded, or the run breaks off with honest counters |
| `RowBatches.RowBatchCoordinator.TakeReject` | src/pipeline/row_batch_coordinator.py:156-171 | a reject is buffered in order and the buffer flushed when full |
| `RowBatches.RowBatchCoordinator.TakeValid` | src/pipeline/row_batch_coordinator.py:173-189 | a container is buffered with its own row number and raw row, and a full buffer becomes one batch |
| `RowBatches.RowBatchCoordinator.Run` | src/pipeline/row_batch_coordinator.py:132-211 | on return nothing is pending, the batches are an exact ordered partition of the valid rows, every reject is quarantined, and all counters and ingestion keys are those of the rows and results; on any break-off, with any of the pending writes committed after it, the absorbed rows are valid rows, a prefix of them with one writer, and the counters are those of the rows read and the results recorded |
| `RowBatches.LastBuffer` | src/pipeline/row_batch_coordinator.py:191-198 | flushing the rest completes the partition: no batch is empty and all but the last are full |
| `RowBatchGuarantees.RowsAreConserved` | src/pipeline/row_batch_coordinator.py:143-211 | anywhere in the loop rows read equal rejected plus recorded plus pending plus buffered rows |
| `RowBatchGuarantees.FinishedRunCountsEveryRow` | scripts/benchmark_fraud_detection.py:521-526 | after a run that returns, total is success plus duplicate plus rejected plus persistence-failed |
| `RowBatchGuarantees.BrokenRunClaimsNoMore` | src/pipeline/run_state.py:276-280 | however a run breaks off, success rows never exceed what the table gained |
| `RowBatchGuarantees.FinishedRunCountsAnyOrder` | src/pipeline/row_batch_coordinator.py:143-242 | after a run that returns, quality and error counters are what recording its outcomes and results in any order gives, the decision is that recounted from the outcomes, and the ingestion keys are those of the valid rows in order |
| `RowBatchGuarantees.WorkersDoNotMatter` | src/pipeline/batch_writer.py:59-75 | with nothing dropped, keys, inserted and duplicate totals are those of the valid rows for every worker count; with one worker, or rows that agree on new keys, so is the whole table |
| `RowBatchGuarantees.BrokenRunLeavesRows` | src/pipeline/row_batch_coordinator.py:180-205 | what an aborted run left in the table, whichever of its pending writes committed |
| `RowBatchGuarantees.QuarantineIsExact` | src/pipeline/row_batch_coordinator.py:244-319 | one validation record per rejected row in source order, the conflicts of all results once each, every one naming its own row and the different payload the table holds, no row twice, and the stored counts summed |
| `RowBatchGuarantees.ConflictsAreLostRows` | src/pipeline/row_batch_coordinator.py:244-291 | with nothing dropped, a row has a conflict record exactly when it is valid and the table ended up with another payload for its key, for every worker count and commit order |
| `RowBatchGuarantees.ConflictCountersAgree` | src/pipeline/run_state.py:281-322 | the conflict counter grew by the number of conflict records handed over, beside rows whose own outcome is a conflict |
| `RowBatchGuarantees.IngestOnce` | src/pipeline/row_batch_coordinator.py:132-211 | a run of any worker count reaches the keys of an uninterrupted run, or leaves a table from which running again does; with one writer the same goes for the whole table |
| `RowBatchGuarantees.IngestWithReplay` | src/pipeline/ingestion_pipeline.py:807-825 | any number of failed attempts followed by a successful one leaves the keys, and with one writer the table, of one uninterrupted run, and inserts exactly the distinct new keys |
| `FileClaim.StepKeepsInv` | src/pipeline/file_claim.py:99-157 | every atomic step of every worker keeps exclusion, the balance of grants and failures, ownership and unique unit keys |
| `FileClaim.ClaimsAreExclusive` | src/pipeline/file_claim.py:99-157 | in every reachable state no two workers own a file, grants outnumber failures by one exactly on claimed files, a file in PROCESSING has an owner, and no lookup fails |
| `FileClaim.OwnedFilesEndRefused` | src/pipeline/file_claim.py:99-157 | a claimant that met a file another worker owns ends refused as a duplicate, whatever the others do until its next step |
| `FileClaim.RefusalCode` | src/pipeline/file_claim.py:150-157 | a refusal names the fetch unit only if the file has no record and the one holder of its key has other contents, and does so if no further record lists the key |
| `FileClaim.RecordsRemain` | src/infrastructure/ingestion/file_repository.py:81-93 | records stay and keep their unit keys, so what an insert met is still found |
| `FileClaim.ForeignFailureBreaksExclusion` | src/pipeline/finalizer.py:59-71 | exclusion needs the status of a claimed file to be written by its owner alone |
| `IngestionRun.Run.Fail` | src/pipeline/finalizer.py:46-77 | the FAILED status is stored exactly when both writes get through and logging does not raise |
| `IngestionRun.Run.Complete` | src/pipeline/finalizer.py:16-44 | stores PARTIAL or COMPLETED by the row counters |
| `IngestionRun.Run.PrepareMapping` | src/pipeline/ingestion_pipeline.py:499-571 | waiting for approval stores PENDING, anything else stores nothing |
| `IngestionRun.Run.ProcessFile` | src/pipeline/ingestion_pipeline.py:739-825 | outcome and stored status agree under a failure at any step; exactly when an exception escapes, when FAILED is stored, when nothing is written because the claim never returned, and what a duplicate claim does |
| `IngestionRun.DuplicateMarkedFailed` | src/pipeline/ingestion_pipeline.py:742-749 | a concrete run in which a duplicate claim marks the record FAILED |
| `IngestionRun.FailedLeftInProcessing` | src/pipeline/ingestion_pipeline.py:807-825 | a concrete run that reports FAILED while the record stays in PROCESSING |
| `Pagination.FetchPaginated` | src/fetchers/api_fetcher.py:182-388 | the loop computes the recursive fetch, in both modes and for every start |
| `PaginationLaws.RunsAreChains` | src/fetchers/api_fetcher.py:203-388 | whatever the outcome: consecutive pages, each cursor before is the cursor after of the page before, only the last unit lacks more or fails, within the budget |
| `PaginationLaws.CursorsAreDistinct` | src/fetchers/api_fetcher.py:366-380 | no cursor is requested twice, except the start cursor once more |
| `PaginationLaws.SucceedsExactly` | src/fetchers/api_fetcher.py:196-364 | a fetch succeeds with the pages and items of the remote's stream if and only if they fit the budget and no cursor is followed twice |
| `PaginationLaws.ResumeEqualsUninterrupted` | src/fetchers/api_fetcher.py:196-212 | resuming after any k units yields exactly the units, keys and items that were left |
| `PaginationLaws.SingleUnitsChainUp` | src/fetchers/api_fetcher.py:311-335 | chained single-unit fetches give the units of an uninterrupted fetch |
| `PaginationLaws.CyclesAreCaught` | src/fetchers/api_fetcher.py:366-380 | an endless chain never succeeds and is reported as a repeated cursor once the budget exceeds its cursors |
| `PaginationLaws.SingleUnitsFollowCycles` | src/fetchers/api_fetcher.py:311-335 | single-unit mode follows a cycle as long as it is asked to |
| `PaginationLaws.DefaultPathsNeverParse` | src/fetchers/api_fetcher.py:481-494 | without configured paths no page parses |
| `PaginationLaws.StreamEnds` | src/fetchers/api_fetcher.py:295 | only an absent, null or empty cursor ends a stream |
| `Normalizer.Normalize` | src/normalizer/normalizer.py:139-221 | the loop over the mappings computes the row's values and errors in order |
| `Normalizer.AmountsAreFinite` | src/normalizer/normalizer.py:198-199 | an amount in the output is a finite decimal whatever its mapping type |
| `Normalizer.EveryMappingAccounted` | src/normalizer/normalizer.py:149-216 | every mapping leaves a value or an error, except an optional date under a timestamp policy |
| `TransactionBuilder.ExtrasAreLossless` | src/normalizer/normalizer.py:535-568 | unless paths collide, every extra value is at the place of its path and nothing else is there |
| `TransactionBuilder.ExtractionRaisesExactly` | src/normalizer/normalizer.py:553-567 | extraction raises exactly when a nested path follows a plain value of its group's name |
| `TransactionBuilder.FastRefinesCanonical` | src/normalizer/normalizer.py:571-719 | both builders refuse with the same errors, and build the same transaction if and only if date and basis have their types |
| `TransactionBuilder.BuildersAgreeOnNormalizedRows` | src/normalizer/normalizer.py:571-719 | on every normalized row under a well-typed config the builders agree and the amount is finite |
| `TransactionBuilder.DecimalBasisPartsBuilders` | src/normalizer/normalizer.py:633-642 | a concrete row on which they do not |
| `RowProcessor.KeyIsTheId` | src/pipeline/row_processor.py:77-86 | a row that passes validation has a non-blank id, which is its key; deriving a key never raises |
| `RowProcessor.FastModeIsInvisible` | src/pipeline/row_processor.py:88-204 | outcome, errors, ingestion key and the partner data handed to the writer are the same in both modes under a well-typed config |
| `RowProcessor.OtherDatesPartModes` | src/validators/validator.py:174-192 | a date of another type is refused in fast mode only |
| `Mapping.UpperIsIrrelevant` | src/pipeline/quality_gate.py:44-56 | column names have one index in either case |
| `QualityGate.ValidateConfig` | src/config/validator.py:43-106 | the loop with its set of seen paths reports what each mapping gets wrong, in order |
| `QualityGate.ConfigErrorsExactly` | src/config/validator.py:43-106 | a config passes exactly when it has mappings, no path twice and nothing wrong in any mapping |
| `QualityGate.ValidateSources` | src/pipeline/quality_gate.py:208-273 | the loop reports exactly the required mappings whose source is not in the structure |
| `QualityGate.Evaluate` | src/pipeline/quality_gate.py:62-151 | all violations in order, and the outcome they imply |
| `QualityGate.GateIsExact` | src/pipeline/quality_gate.py:85-151 | the gate fails a file exactly for an unsound config, an unmapped required path, a missing required source or fatal drift |
| `QualityGate.DriftKeepsApprovedColumns` | src/pipeline/quality_gate.py:199-206 | drift that is not fatal leaves every approved header at its index, and it is not fatal exactly when they are there and width and header count are the approved ones or appended to them |
| `QualityGate.DriftIsFatalExactly` | src/config/signature.py:67-91 | for a signature as wide as its headers, drift is fatal exactly when an approved column changed |
| `GateSoundness.AcceptedColumnsResolve` | src/normalizer/normalizer.py:258-287 | a required column is accepted exactly when it resolves on a row as wide as the file and has a header |
| `GateSoundness.GateIsSoundForColumns` | src/pipeline/quality_gate.py:221-247 | after a passing gate every required column mapping resolves on every row at least as wide as the structure |
| `GateSoundness.GateKeepsApprovedColumns` | src/pipeline/quality_gate.py:110-138 | after a passing gate every approved column is where it was, also under append-only drift |
| `GateSoundness.NoWidthNoPromise` | src/pipeline/quality_gate.py:221-222 | without a known width any column passes |
| `GateSoundness.SourceFieldsNeverResolveOnCells` | src/normalizer/normalizer.py:299-304 | an accepted source field never resolves on a row of cells |
| `QualityScan.RecordRequired` | scripts/eda/quality_profile_scan.py:348-363 | each missing required column is counted once and the row marked missing and rejected |
| `QualityScan.RecordTimestamp` | scripts/eda/quality_profile_scan.py:366-409 | which row sets one timestamp enters |
| `QualityScan.RecordAmount` | scripts/eda/quality_profile_scan.py:412-459 | which row sets one amount enters |
| `QualityScan.RecordNumeric` | scripts/eda/quality_profile_scan.py:462-479 | the row is marked if some other numeric column does not read as a finite decimal |
| `QualityScan.ScanRows` | scripts/eda/quality_profile_scan.py:169-276 | the loop, with blank lines and the prefix limit, computes the scan of the counted rows |
| `QualityScanLaws.StepByKind` | scripts/eda/quality_profile_scan.py:176-217 | what a row does to the sets depends only on whether it is malformed, a duplicate, in conflict or stands for itself |
| `QualityScanLaws.DuplicatesExactly` | scripts/eda/quality_profile_scan.py:208-216 | a row is a duplicate exactly when the first earlier row of its key has its payload |
| `QualityScanLaws.ConflictsExactly` | scripts/eda/quality_profile_scan.py:208-214 | a key conflicts exactly when two rows that carry it have different payloads |
| `QualityScanLaws.ValidRowsExactly` | scripts/eda/quality_profile.py:116-123 | rejected and duplicate rows are disjoint and the reported valid rows are the clean first or keyless rows |
| `ColumnObservations.CollectObservations` | scripts/eda/quality_profile_scan.py:323-345 | the loop over a row's items computes the bounded observation |
| `ColumnObservations.DistinctCountsExactly` | scripts/eda/quality_profile_scan.py:339-343 | the stored count is the true distinct count cut off at the limit, and the column is saturated exactly when the true count exceeds it |
| `QualityVerdict.BuildRuleResults` | scripts/eda/quality_profile_rules.py:31-80 | the list holds exactly the rules that apply, with their results |
| `QualityVerdict.ScansAreExplained` | scripts/eda/quality_profile_scan.py:219-276 | every rejection has a finding behind it, and findings need their column to be configured |
| `QualityVerdict.DecisionFailsExactly` | scripts/eda/quality_profile_rules.py:83-94 | the decision is FAIL exactly when some rule fails or a rejection hides behind an empty column name |
| `QualityVerdict.VerdictsAgree` | scripts/eda/quality_profile_rules.py:31-94 | with named columns FAIL means some rule fails, and PASS means every rule but the uniqueness rule passes |
| `QualityVerdict.EmptyColumnNamePartsVerdicts` | scripts/eda/quality_profile_rules.py:74-77 | a valid spec and a one-row file on which the verdicts part |

## Left out

- RowBatchGuarantees.IngestWithReplay: writes an aborted run left behind commit before the next run starts; for those that commit in the middle of it only the table is stated (`LateCommitsKeepKeys`, `LateCommitsKeepTable`), not the counters of that run.
- BatchWriter.PartnerTransactionWriter.InsertMany: no other run writes the table at the same time; the claim keeps two runs off one file, but not off one key in two files.
- RowBatches.RowBatchCoordinator.Run: which errors the bounded sample keeps is not stated, only their count and fields; stage events, timings and a logger that raises inside the loop are left out.
- RunState.IngestionRunState.RecordBatchResult: `merge_stage_summary` is not modelled, and it does not update failed rows, so the consistency of the counters is stated without it; neither are error samples passed to the constructor.
- IngestionRun.Run.ProcessFile: the check for missing ports before the try block and cancellation are not modelled; swallowed best-effort writes have no effect in it.
- FileClaim.ClaimsAreExclusive: a crashed worker keeps its file in PROCESSING for good, as in the code; taking such files over is not part of the source either. The derivation of the fetch unit key is left out.
- Pagination.FetchPaginated: start cursors are strings or absent; request retries with backoff, file names, hashes of page contents and samples are left out, and hashes of identities are taken to be injective.
- PaginationLaws.SingleUnitsFollowCycles: the stream runner that chains single-unit fetches is represented by the chain alone.
- Normalizer.Normalize: decimal and timestamp parsing are parameters; debug traces are left out; digits and letters are those of ASCII.
- QualityGate.Evaluate: reading the header from a file is left out; headers arrive stripped.
- QualityScan.ScanRows: row hashes are taken to be injective; exact duplicates, distributions, samples, amount statistics and daily counts are left out, and white space is that of ASCII.
- QualityVerdict.BuildRuleResults: `actual`, `expected` and `action` of a rule and the order of the required columns are left out.
- Dictionary rows in quarantine: only rows of cells are sanitized in the model; masking of secret fields is left out.
- Databases, HTTP, SFTP, Excel, scheduling, language models, API routers and the frontend: not modelled.
- Config loading and its cache: freshness is checked by id only, so equality with the repository is not claimed.
- Insights, grouping, guardrails, prompts, redaction, benchmarks and seeding: they would only add easy members.
