# Nektron Moments: verified models of synchronization, paid analysis and their neighbours

Dafny models of the parts of Nektron Moments whose correctness spans several
functions, processes or crashes, with proofs of what they promise. Check everything
with `dafny verify dfyconfig.toml`.

## What is modelled

**Synchronization of one source** (`Manifest`, `Outbox`, `LocalState`, `Splitting`,
`BulkRefinement`, `OutboxLaws`, `Planning`, and the `Sync*` files). A client remembers what the
server holds (known occurrences), queues differences as batches, and delivers them
either one request at a time or as one asynchronous bulk import, falling back to
batches when the import fails. `Outbox` says what each committed transaction does to
the tables; the class `LocalState` carries out those transactions in place, with the
loops of state.py, and is proved equal to them; `OutboxLaws` says what the short
transactions mean to their callers, and `Answers` what a stored answer leaves on client
and server, entry by entry. `SyncProtocol` is the whole system as a state machine: one
event is a committed transaction of the engine, a request, a move of the server, or a
crash at any point. A lost response is a request whose effect stays while the engine
stops. The start is any client whose inventories agree and whose queued batches, of any
size, were never sent. What the engine must not do is proved for all runs; that it can
always drain what waits and sync a scan is proved from all reachable states
(`SyncProgress`, `SyncConvergence`), and that an import can take it all, from all starts
with hashed upserts (`SyncImport`).

**Description bookkeeping** (`Descriptions`, `DescriptionLaws`): candidates and job
rows, and what any run does to the row of one job.

**Paid description calls** (`ByokJournal`, `ByokProtocol`, `ByokSafety`, `ByokLedger`,
`ByokResults`, `ByokProgress`): the journal as a class, and worker pools of several
sources interleaved over one journal, with counters of the possibly billed calls and of
charges above their reservation. What calls cost is read off the run and compared with
the ledger; and from all reachable states the jobs that are ready or failed can be
worked off.

**Fast forms of simple functions**: the parallel scanner (`Permutations`, `Scanner`)
against a sequential scan; the streamed catalog (`Catalog`, `CatalogTheorems`) against
the two-query catalog; the streaming result reader against the in-memory one
(`ResultFile`), and the line framing both rest on (`Framing`). Queries and worker
pools are nondeterministic: any order that ORDER BY or completion allows.

**Small state machines**: the import control plane (`ImportControl`, `ImportSafety`)
with concurrent requests whose first read may be stale, and the migration runner
(`Migrations`, `MigrationTheorems`) stopped after any statement.

## What is false, and when it is true

* Known occurrences equal the server inventory whenever nothing is pending. Before
  that, they differ only where the server holds the effect of an entry that still
  waits. In every run, with every transport, crash, lost answer, expired reply and
  given-up import, this holds in all states exactly when three guards are met, each
  read before its event (`SyncAgreement.AgreementIsExact`,
  `DrainedInventoriesAreEqual`): a stored answer accepts only what is in effect on the
  server, and refuses nothing in effect there that the client does not know; an applied
  page has only rows in effect there; a merge writes only what the client knows or
  still has waiting. As long as no unusable answer gives up a live import, only a
  refusal can break them (`SyncAgreement.KeptRunsAgreeExactly`), and then the
  inventories differ at most at items of waiting or refused entries
  (`SyncAgreement.InventoriesAgree`). For any photo there is a run that breaks the
  guard on refusals by a request rejected for good after it had its effect
  (`SyncLimits.RejectedRetryDiffers`) or after an import had it (`AbortedImportDiffers`),
  and one that breaks the guard on merges by an import given up and merged later
  (`GivenUpImportDiffers`). Batch runs against a server that keeps its replies meet the
  guards (`SyncAgreement.BatchRunsAreGuarded`).
* Batches never race a submitted import, exactly when no unusable status answer comes
  while the import is queued, running or due for a retry, and no unusable completion
  answer while it is not over, for completing queues it (`SyncTheorems.RacesExactly`,
  `StepRacesExactly`). Usable answers suffice (`SyncLimits.UsableKeepsImports`);
  `SyncLimits.UnusableAnswerRaces` is a run with a race.
* An interrupted result is resumed from its cursor: exactly when its file is no longer
  there and it is saved again. A result that is saved and still on disk ends in the
  fallback to batches, with nothing lost, because the status stored on the way back
  closes the item for pages (`SyncRecords.RunsResumeExactly`, `OutboxLaws.StatusClosesPages`).
* The streamed catalog equals the two-query catalog exactly when the first path of
  each item names one source (`CatalogTheorems.StreamIsCatalogExactly`). The same path
  may belong to several sources, and neither query orders those rows.
* Pages cover the whole timeline exactly when it ends by the last page whose offset is
  allowed (`CatalogTheorems.PagesCoverTimeline`).
* The order of a scan is fixed exactly when no two of its candidates have paths that
  fold alike (`Scanner.OrderIsFixedExactly`); tied ones keep the order they arrive in.
* A reservation also answers yes for a row that is not ready, which it leaves alone
  (`ByokJournals.ReserveExactly`). That calls are paid once therefore rests on the pool
  never holding a job twice (`ByokSafety.NoJobTwice`).
* The ledger counts the calls that may have been billed and nothing else, but for one
  end: an image the provider turned away after a call leaves its job ready with the
  reservation, until the job is reserved again or its preview fails
  (`ByokLedger.LedgerIsExact`).
* A migration run ends done exactly when no half-made schema stands in its way
  (`MigrationTheorems.RunEndsDone`).

## Assumptions

* A transaction is atomic; the per-source lock admits one process; identifiers are
  fresh; a deduplicating hash stands for its content.
* The server replays the stored response of a reused idempotency key, judges a manifest
  entry by entry, rejects repeated items, and merges a whole import in one transaction.
  Which entries it rejects is arbitrary. The result of a succeeded import answers every
  row and rejects none.
* Costs are whole millionths of a dollar, the unit byok.py rounds charges up to.
  A call the provider turned away (rate limit, credits, quota, authentication) is not
  billed, which is how byok.py treats it.
* The file system answers the same during one scan. A file's item identifier and cache
  key are functions of its path, and media kinds are given with the path.
* A migration statement fails only because what it adds already exists.

## Model

| member | source | states |
|---|---|---|
| `LocalStates.LocalState.QueueBatches` | cli/nektron_moments_cli/state.py:695-719 | one pending row for each payload, in order, with consecutive sequence numbers under one scan, after the rows already there |
| `LocalStates.LocalState.PendingBatches` | cli/nektron_moments_cli/state.py:721-745 | exactly the pending rows, in the order they are delivered in |
| `LocalStates.LocalState.SplitOversizedPendingBatches` | cli/nektron_moments_cli/state.py:747-872 | refused exactly outside 1 to 500; otherwise every oversized pending row is discarded and replaced by its pieces, and the counts of both are returned |
| `LocalStates.LocalState.ReplacementRows` | cli/nektron_moments_cli/state.py:807-842 | the nested loops over batches and offsets produce the pieces of all oversized batches in order, with one running sequence number |
| `LocalStates.LocalState.AcknowledgeBatch` | cli/nektron_moments_cli/state.py:874-1054 | accepted entries reach the known occurrences and the description tables, refused ones are noted, the row ends Sent exactly when nothing was refused and no rejection was reported, and the failures returned are the refused entries and one more when more rejections are reported |
| `Answers.AnswerIsStored` | cli/nektron_moments_cli/state.py:905-1054 | storing an answer, from operation, outcome, upload request and reliability: a taken upsert is known at its revision, a taken deletion is forgotten, an ignored deletion counts only after a reliable read, an entry asking for an upload changes nothing; the row is Sent exactly when all are taken and no rejection is reported, and otherwise fails with the entries that are not; all else stays |
| `Answers.ResultIsLast` | cli/nektron_moments_cli/state.py:896-909 | the result of an item is the last one that names it |
| `Answers.EachIsServed` | services/domain/service.py:707-850 | the server answers a batch of distinct items entry by entry, each with what it did to the item |
| `Answers.AnsweredInStep` | cli/nektron_moments_cli/state.py:874-1054 | when the server processes a reliable batch and its answer is stored, client and server agree at every item not rejected, whatever each held before, and the row is Sent exactly when none was |
| `OutboxLaws.RejectionConserves` | cli/nektron_moments_cli/state.py:1640-1702 | a batch rejected for good leaves the queue and nothing else does: the pending entries before are the pending ones after plus those of the batch, in order; its named items are quarantined, the inventory stays, and a repeated rejection changes nothing |
| `LocalStates.LocalState.QuarantinedRevisions` | cli/nektron_moments_cli/state.py:1710-1727 | the failed revision of each item, a later row winning |
| `OutboxLaws.QuarantineIsLatest` | cli/nektron_moments_cli/state.py:1710-1727 | the quarantined revision of an item is the one of its latest named failure |
| `OutboxLaws.QuarantinedHasFailure` | cli/nektron_moments_cli/state.py:1710-1727 | only items with a named failure are quarantined |
| `LocalStates.LocalState.QueueBulkManifest` | cli/nektron_moments_cli/state.py:1785-1926 | the new item captures pending rows of hashed upserts whose entries it counts; another active item, different content under the same snapshot, and wrong members are each refused without a trace |
| `OutboxLaws.BoundOnce` | cli/nektron_moments_cli/state.py:1985-2007 | an item is bound once: after any later bindings, statuses, pages, results and failures another import is refused and its own is not |
| `OutboxLaws.StatusClosesPages` | cli/nektron_moments_cli/state.py:2009-2054 | a stored status closes a partly applied item: through any later transactions but saving its result, every page is refused as not verified, and the cursor, the known occurrences and the queue stay as they were |
| `OutboxLaws.SavingReopens` | cli/nektron_moments_cli/state.py:2056-2095 | a result can be saved exactly for a bound import that finished, and then exactly the clean pages that start at the old cursor are accepted, none of which was before |
| `LocalStates.LocalState.ApplyBulkResultRows` | cli/nektron_moments_cli/state.py:2097-2184 | a page is applied with its cursor in one step, or refused with the first error and no change at all |
| `OutboxLaws.PageAppliesExactly` | cli/nektron_moments_cli/state.py:2097-2184 | a page is applied exactly when the item is open for pages and every row fits its place after the cursor; then each row takes effect at its item, no other item changes, and the cursor moves by the size of the page |
| `OutboxLaws.CompletionSupersedes` | cli/nektron_moments_cli/state.py:2186-2254 | completing supersedes exactly the captured batches that were pending: the others stay pending in order, no other row or item changes, pages are refused afterwards, and completing again changes nothing |
| `OutboxLaws.FailureFreesBatches` | cli/nektron_moments_cli/state.py:2256-2286 | giving up the active item leaves every batch and everything applied as it is, and the batches can be captured for another import, which was refused before |
| `LocalStates.LocalState.QueueSceneDescriptionTasks` | cli/nektron_moments_cli/state.py:1156-1247 | all tasks are queued, or none |
| `Descriptions.ReselectEach` | cli/nektron_moments_cli/state.py:1249-1287 | the loop over affected jobs re-selects each job once, in any order |
| `Descriptions.QueueInTransaction` | cli/nektron_moments_cli/state.py:1057-1155 | the branches of queueing one candidate amount to the table function that DescriptionLaws.QueuedRow and ReplacedRow are about |
| `Descriptions.QueueKeepsConsistent` | cli/nektron_moments_cli/state.py:1057-1155 | after queueing, all candidates of an item still name one job, and every job named has a row |
| `Descriptions.DropItemKeepsConsistent` | cli/nektron_moments_cli/state.py:995-1018 | deleting the candidates of a removed item keeps both |
| `Descriptions.RemoveSourceKeepsConsistent` | cli/nektron_moments_cli/state.py:445-464 | removing a source keeps both for the other sources |
| `Descriptions.EveryRunIsConsistent` | cli/nektron_moments_cli/state.py:1056-1491 | in every reachable state, through queueing, replacement, deletion, skip, confirm and source removal, all candidates of a source item carry one job, and every candidate has its job row |
| `DescriptionLaws.QueuedRow` | cli/nektron_moments_cli/state.py:1057-1155 | a job without a row gets one that waits, with this source and identity, and a job with a row keeps it; the photo becomes its newest candidate, candidates of the item for other jobs go, and no other candidate changes |
| `DescriptionLaws.ReplacedRow` | cli/nektron_moments_cli/state.py:1097-1115 | the row of a job that loses a candidate to a replacement names the newest one left, or goes when none is; the other rows stay |
| `DescriptionLaws.DroppedRow` | cli/nektron_moments_cli/state.py:995-1018 | after the deletion of an item, so do the rows of the jobs it supplied |
| `DescriptionLaws.RemovedRow` | cli/nektron_moments_cli/state.py:442-464 | after the removal of a source, so do the rows of the jobs it supplied, and its rows without a candidate go |
| `DescriptionLaws.TaskRow` | cli/nektron_moments_cli/state.py:1156-1247 | a prepared task makes the row of its job name its photo, and wait unless its description was sent |
| `DescriptionLaws.EventKeepsState` | cli/nektron_moments_cli/state.py:1056-1491 | only an event of its own job changes the state of a row, and every new row waits |
| `DescriptionLaws.EventOnItsJob` | cli/nektron_moments_cli/state.py:1391-1491 | what is written to the state of a job is the state its row then has, and confirming or skipping a job removes exactly its candidates |
| `DescriptionLaws.WaitsUntilChanged` | cli/nektron_moments_cli/state.py:1056-1491 | in every run, a row waits until its own state is changed, whatever is queued, replaced, deleted, prepared, confirmed or removed |
| `DescriptionLaws.AcceptedWaits` | cli/nektron_moments_cli/state.py:1289-1310 | in every run, every candidate has a row, which waits to be described unless its own state was changed |
| `DescriptionLaws.EveryRunIsTimely` | cli/nektron_moments_cli/state.py:1057-1155 | in every run, the photo queued last is the newest candidate of its job |
| `Manifest.AcceptedOrRefused` | cli/nektron_moments_cli/state.py:874-966 | every entry of a batch is either accepted with its own result or refused, never both, and nothing else is |
| `Manifest.DeliverAllKnown` | cli/nektron_moments_cli/state.py:968-1018 | delivering distinct entries leaves each item at the effect of its entry and every other item as it was |
| `Manifest.DeliverAllKeepsDescriptions` | cli/nektron_moments_cli/state.py:995-1018 | delivering any entries keeps the description tables consistent |
| `Splitting.SplitConservesPending` | cli/nektron_moments_cli/state.py:747-872 | the multiset of pending entries is the same before and after a split |
| `Splitting.NewRowsConcatenate` | cli/nektron_moments_cli/state.py:807-842 | the replacement rows concatenate to the entries of the oversized batches, in order |
| `Splitting.NewRowsSize` | cli/nektron_moments_cli/state.py:807-842 | every replacement row has between one entry and the maximum |
| `Splitting.NewRowsKeys` | cli/nektron_moments_cli/state.py:807-842 | the sequence numbers of the replacements are contiguous under one fresh scan |
| `Splitting.SplitKeepsUnique` | cli/nektron_moments_cli/state.py:747-872 | idempotency keys and row identifiers stay unique |
| `Splitting.SplitTwice` | cli/nektron_moments_cli/state.py:747-872 | a second split of the same size changes nothing |
| `BulkRefinement.CursorIsExact` | cli/nektron_moments_cli/state.py:1985-2286 | from any cursor with the rows up to it folded in, through any interleaving of pages of the verified result (any size, repeated, stale, out of order) with bindings, statuses, saved results and failures, the database is the starting one with exactly the rows up to the cursor folded in |
| `BulkRefinement.BulkRefinesBatches` | cli/nektron_moments_cli/state.py:1785-2286 | queued for pending batches whose entries the server all accepted, and taken through any transactions on the item, an import can be completed only with the known occurrences, description tables and pending rows that acknowledging those batches one by one leaves |
| `BulkRefinement.BulkPathCompletes` | cli/nektron_moments_cli/sync.py:709-1050 | and it can: queued, bound, reported as succeeded, its result saved and applied in consecutive pages of any sizes, the item is completed with that outcome |
| `BulkRefinement.PagesAllApply` | cli/nektron_moments_cli/sync.py:1007-1036 | consecutive pages of a clean result from the cursor on are all accepted, whatever their sizes |
| `Planning.PlanEntries` | cli/nektron_moments_cli/sync.py:198-229 | an entry is queued, in scan order, exactly when its revision differs from the known one and from the quarantined one; a deletion exactly once for each known item that a complete read did not see, unless its known revision is quarantined |
| `Planning.ManifestPayloads` | cli/nektron_moments_cli/sync.py:1796-1814 | consecutive payloads of one to a hundred entries that together are the plan, each reliable exactly when the read was complete |
| `Planning.BoundedBulkBatches` | cli/nektron_moments_cli/sync.py:558-576 | the longest prefix of the pending batches within the row limit, but at least one batch |
| `Planning.SyncConverges` | cli/nektron_moments_cli/sync.py:198-289 | when every queued entry is accepted, the client knows every scanned item as scanned unless that revision was known or quarantined before; a known unseen item is gone exactly when the read was complete and its known revision not quarantined; every other item stays; nothing is pending, and a second plan for the same scan is empty |
| `Planning.SecondPlanIsEmpty` | cli/nektron_moments_cli/sync.py:198-229 | the inventory that a sync over a scan leaves has nothing to queue for the same scan |
| `SyncTheorems.StepKeeps` | cli/nektron_moments_cli/sync.py:440-932 | every event of engine, server or crash keeps the client part of the protocol invariant, and the server part too unless an unusable answer comes while the import it is about is live or about to be queued |
| `SyncAgreement.InventoriesAgree` | cli/nektron_moments_cli/sync.py:133-302 | in every state of a run in which no unusable answer gives up a live import, client and server differ at an item only where the server holds the effect of an entry that still waits or was noted as refused |
| `SyncAgreement.AgreementIsExact` | cli/nektron_moments_cli/sync.py:133-302 | in all states of any run from a fresh start, client and server differ only where the server holds the effect of an entry that still waits, if and only if each stored answer accepts only what is in effect on the server and refuses nothing in effect there that the client does not know, each applied page has only rows in effect there, and each merge writes only what the client knows or has waiting; likewise when noted refusals excuse a difference too |
| `SyncAgreement.StepSettlesExactly` | cli/nektron_moments_cli/sync.py:440-1217 | from any reachable state in which they differ only there, these guards, read before the step, decide for every event whether they still do |
| `SyncAgreement.KeptRunsAgreeExactly` | cli/nektron_moments_cli/sync.py:133-302 | in runs in which no unusable answer gives up a live import, refusing what the server holds and the client does not know is all that can break the agreement |
| `SyncAgreement.DrainedInventoriesAreEqual` | cli/nektron_moments_cli/sync.py:133-302 | in any run that meets those guards the inventories are equal whenever nothing is pending |
| `SyncAgreement.HiddenRefusalStays` | cli/nektron_moments_cli/sync.py:1158-1180 | in any run, an answer that refuses what the server holds and the client does not know leaves the item different with nothing waiting for it |
| `SyncAgreement.BatchRunsAreGuarded` | cli/nektron_moments_cli/sync.py:1133-1217 | batch runs against a server that keeps its replies meet the guards at every event |
| `SyncTheorems.AtMostOneActive` | cli/nektron_moments_cli/state.py:1936-1951 | in every reachable state, whatever the answers were, at most one item is active, and every batch it captured is pending |
| `SyncTheorems.BatchesNeverRaceAnImport` | cli/nektron_moments_cli/sync.py:593-932 | while a batch is about to be sent or its answer is in hand, no import is queued, running or due for a retry, for every transport choice and crash point |
| `SyncTheorems.RacesExactly` | cli/nektron_moments_cli/sync.py:593-932 | no state of a run has such a race if and only if no unusable status answer in it came while the bound import was live, and no unusable completion answer while it was not over |
| `SyncTheorems.StepRacesExactly` | cli/nektron_moments_cli/sync.py:593-932 | from any state of the protocol that guard, read before the step, decides for every event whether the next state has a race |
| `SyncTheorems.GivenUpImportRaces` | cli/nektron_moments_cli/sync.py:860-932 | an unusable answer at such a point leads straight to a batch request beside the import |
| `SyncLimits.UsableKeepsImports` | cli/nektron_moments_cli/sync.py:780-860 | runs whose status and completion answers are all usable meet the guard |
| `SyncTheorems.ScansStartDrained` | cli/nektron_moments_cli/sync.py:160-197 | in every run, a scan is planned only when nothing is left to deliver |
| `SyncConvergence.ScanIsQueuedExactly` | cli/nektron_moments_cli/sync.py:196-262 | in every run, a scan queues exactly the differences it found, in order, in batches of one to a hundred entries that are reliable exactly when the read was complete, and a scan without any ends the sync |
| `SyncConvergence.EveryStateSyncs` | cli/nektron_moments_cli/sync.py:133-302 | from every reachable state, through whatever crashes, lost answers, refusals and given-up imports it was reached, and for every scan, the engine can drain what waits and then sync the scan: the client knows what was found and has forgotten what was missed, the server holds the same at every item that changed, nothing waits, and the same scan again queues nothing |
| `SyncRecords.NoEntryIsLost` | cli/nektron_moments_cli/sync.py:1133-1217 | in every run, no step loses a waiting entry: it waits on, or is noted as refused, or is in effect in the client record |
| `SyncRecords.CapturedWorkIsSafe` | cli/nektron_moments_cli/sync.py:946-1093 | in every run, the step that ends an active item either has applied all its rows and discards its batches with it, or leaves its batches pending; and it applies the item if and only if it finishes a result whose rows are all applied |
| `SyncRecords.FullyAppliedCompletes` | cli/nektron_moments_cli/sync.py:1033-1051 | in every run, finishing a result whose rows are all applied leaves the item Applied and its batches discarded, with every row in effect, and the engine goes on scanning, or starts over when work is left |
| `SyncRecords.CompletesExactly` | cli/nektron_moments_cli/state.py:2186-2254 | at the pages of a result, completing succeeds exactly when every row is applied |
| `SyncProgress.EveryStateDrains` | cli/nektron_moments_cli/sync.py:440-1217 | from every reachable state there is a run of the engine to where nothing is left to deliver and the next scan is due |
| `SyncProgress.RoundsDrain` | cli/nektron_moments_cli/sync.py:1133-1217 | as many answers as batches wait, whatever they say, drain the queue |
| `SyncImport.ImportCompletes` | cli/nektron_moments_cli/sync.py:440-1093 | from every start with only hashed upserts waiting, each with a revision and a file name, in batches of any number and size, there is a run in which one import captures them all, is created, uploaded, polled to success and applied page by page, and ends Applied with its batches discarded, nothing left to deliver, and every entry in effect on client and server |
| `SyncFlow.TransportIsChosenExactly` | cli/nektron_moments_cli/sync.py:440-556 | in every run, an active import is resumed or escaped from, and otherwise one is started exactly for hashed upserts, when asked for, or from ten batches or a thousand rows on |
| `SyncFlow.StatusIsDecidedExactly` | cli/nektron_moments_cli/sync.py:593-932 | in every run, what a process does about a stored status: it waits for a running import, cancels one not submitted when it only sends batches, opens a success it keeps, and gives up any other end |
| `SyncRecords.RunsResumeExactly` | cli/nektron_moments_cli/sync.py:836-1050 | in every run, taken up again with rows left, a result that is saved and still on disk ends in the fallback with nothing more applied and the captured batches pending, because the stored success closed the item; any other result is saved again and goes on from the cursor |
| `SyncExact.DrainedIsExact` | cli/nektron_moments_cli/sync.py:1133-1217 | in batch runs against a server that keeps its replies, known occurrences equal the server inventory whenever nothing is pending, refusals included |
| `SyncExact.DifferenceIsPending` | cli/nektron_moments_cli/sync.py:1133-1217 | in between, the two differ only at an entry of a pending batch whose acceptance was not heard |
| `SyncExact.ProcessRefused` | services/domain/service.py:707-850 | an entry the answer does not accept left the server unchanged at its item |
| `SyncExact.BatchStepExact` | cli/nektron_moments_cli/sync.py:1133-1217 | every event of a batch run keeps the exact correspondence |
| `SyncLimits.AbortedImportDiffers` | cli/nektron_moments_cli/sync.py:709-932 | a run that breaks the guard on refusals with an import: for any photo, an import merged and then aborted, whose batch is rejected for good, leaves the inventories unequal with nothing pending |
| `SyncLimits.RejectedRetryDiffers` | cli/nektron_moments_cli/sync.py:1158-1180 | a run that breaks it with batches alone: for any photo, a request whose answer is lost and whose repetition is rejected for good leaves the inventories unequal with nothing pending |
| `SyncLimits.GivenUpImportDiffers` | cli/nektron_moments_cli/sync.py:860-932 | a run that breaks the guard on merges: for any photo, an import given up on an unusable answer and merged after its batch was rejected for good leaves the inventories unequal with nothing pending, though the server held nothing when the rejection was stored |
| `SyncLimits.UnusableAnswerRaces` | cli/nektron_moments_cli/sync.py:780-932 | such a run from the start: the answer to completing an upload is unusable, the import is given up while queued, and the next batch request races it |
| `ByokJournals.ByokJournal.TryReserve` | cli/nektron_moments_cli/byok.py:105-114 | the answer is whether the month has room; a ready row becomes Calling with its reservation in the same step, any other row stays |
| `ByokJournals.RequeueExactly` | cli/nektron_moments_cli/byok.py:66-78 | a requeue is done exactly for an unanswered job that needs attention, or is uncertain and may be retried; it archives one attempt, frees the reservation, touches no other job, and a second one is refused |
| `ByokJournals.ByokJournal.RecoverCalls` | cli/nektron_moments_cli/byok.py:80-82 | interrupted calls of one source become uncertain, and nothing else changes |
| `ByokJournals.AddedOnce` | cli/nektron_moments_cli/byok.py:84-87 | adding a job twice, with whatever details, is adding it once: every row stays in place, jobs stay unique and no total changes |
| `ByokJournals.ByokJournal.RowsFor` | cli/nektron_moments_cli/byok.py:89-94 | the first matching rows in insertion order, without the excluded jobs |
| `ByokJournals.ByokJournal.Ledger` | cli/nektron_moments_cli/byok.py:105-111 | the total over current and archived attempts of a month |
| `ByokJournals.ReserveExactly` | cli/nektron_moments_cli/byok.py:105-114 | refused exactly when the month has no room; the row changes exactly when it was ready and the month had room; no other row and no archived attempt changes |
| `ByokJournals.ReserveWithinCap` | cli/nektron_moments_cli/byok.py:105-114 | a successful reservation commits with the month within the cap and adds to no other month |
| `ByokJournals.RequeueKeepsTotals` | cli/nektron_moments_cli/byok.py:66-78 | explicit requeueing preserves the total of every month exactly |
| `ByokSafety.StepKeeps` | cli/nektron_moments_cli/byok.py:175-369 | every event of any process or worker keeps the pool invariant |
| `ByokSafety.PaidAtMostOnce` | cli/nektron_moments_cli/byok.py:175-261 | across all interleavings, stops, crashes and restarts the possibly billed calls of a job exceed its archived attempts by at most one, and by none while the job is ready |
| `ByokSafety.NoJobTwice` | cli/nektron_moments_cli/byok.py:326-362 | no job is in flight in two workers, and a worker that calls holds a committed reservation for its own job |
| `ByokSafety.NeverPaidTwice` | cli/nektron_moments_cli/byok.py:294-369 | without an explicit retry no job is paid for twice |
| `ByokSafety.LedgerWithinCap` | cli/nektron_moments_cli/byok.py:205-228 | the total of every month is within the cap, up to what charges exceeded their reservations by |
| `ByokSafety.LedgerIsCapped` | cli/nektron_moments_cli/byok.py:205-228 | if every settled charge is at most its reservation, every month is within the cap in every reachable state |
| `ByokLedger.OpenCallsAreHeld` | cli/nektron_moments_cli/byok.py:175-235 | in every reachable state, a row that is called, or whose call may have been billed without an answer, holds its reservation in its month, and one that needs attention holds nothing |
| `ByokLedger.LedgerCoversCalls` | cli/nektron_moments_cli/byok.py:80-228 | in every reachable state, the total of a month is at least what the possibly billed calls reserved in it cost, each its charge, or its reservation as long as no charge is reported |
| `ByokLedger.LedgerIsExact` | cli/nektron_moments_cli/byok.py:66-261 | and it counts nothing else: it is exactly what is held for the reservations made in the month, replaced by the charge once reported and freed by an unbilled end, except that an image turned away after a call leaves its reservation until the job is reserved again or its preview fails |
| `ByokLedger.BilledWithinCap` | cli/nektron_moments_cli/byok.py:105-228 | so the possibly billed calls of a month cost at most the cap, up to what charges exceeded their reservations by |
| `ByokResults.DescribedIsSaved` | cli/nektron_moments_cli/byok.py:226-229 | in every reachable state, settling an answered call saves its text, ready to be sent |
| `ByokResults.ResultIsKept` | cli/nektron_moments_cli/byok.py:153-261 | in every run, a saved text stays as it was, through failed sends, crashes, restarts and retries, and its job is only sent, never called again |
| `ByokProgress.EveryReadyJobIsDescribed` | cli/nektron_moments_cli/byok.py:175-261 | from every reachable state, every ready job whose call a month has room for can be described and sent, with exactly one call and none of another job, whatever stands before it in the queue |
| `ByokProgress.EveryFailedJobIsRetried` | cli/nektron_moments_cli/byok.py:263-293 | and so can every failed or uncertain job without an answer on an explicit retry, with its attempt archived |
| `ByokProgress.EveryOfferedJobIsReady` | cli/nektron_moments_cli/byok.py:294-369 | and every job without a row can be added, ready |
| `Scanner.Walk` | cli/nektron_moments_cli/media.py:760-793 | for any completion order of the directory workers, the files and errors found are those of the tree |
| `Scanner.StatCandidates` | cli/nektron_moments_cli/media.py:496-561 | for any completion order, the candidates, seen items, errors and skipped placeholders are those of the paths, and the most futures ever in flight are eight a worker, or all when there are fewer |
| `Scanner.ProcessUncached` | cli/nektron_moments_cli/media.py:597-682 | for any completion order, every slot holds the entry of its own candidate, each file read gives one cache update, and the most futures ever in flight are four a worker, or all when there are fewer |
| `Scanner.LookUp` | cli/nektron_moments_cli/media.py:437-453 | slots are filled from matching records only, and every other position is left to read |
| `Scanner.FastAdd` | cli/nektron_moments_cli/media.py:455-473 | the positions left to read get an entry without a hash |
| `Scanner.FileCache.CacheFiles` | cli/nektron_moments_cli/state.py:575-616 | each update replaces the record of its path, in order |
| `Scanner.Scan` | cli/nektron_moments_cli/media.py:376-494 | entries are the slots in path order; the entries recognized, hashed and left to hash, the files skipped and those failed are each counted exactly; every newly read file is written to the cache once; and with distinct casefolded paths and a sound cache a full scan is the sequential one |
| `Scanner.ScanIsSequential` | cli/nektron_moments_cli/media.py:376-494 | for every order the pools may leave, a full scan over a sound cache gives the sequential uncached scan in path order |
| `Scanner.OrderIsUnique` | cli/nektron_moments_cli/media.py:432-436 | with distinct casefolded paths the candidates end in one order whatever the completion order |
| `Scanner.CacheStaysSound` | cli/nektron_moments_cli/media.py:640-682 | what a scan writes keeps the cache equal to fresh reads |
| `Scanner.OrderIsFixedExactly` | cli/nektron_moments_cli/media.py:432-436 | for every tree, the order of the candidates is fixed if and only if no two of them fold alike, and every order sorted by folded path is what the sort leaves for some order of arrival |
| `Catalog.CatalogOf` | cli/nektron_moments_cli/desktop_bridge.py:266-297 | each media row with its aliases in order and the source of the first of them |
| `Catalog.Stream` | cli/nektron_moments_cli/desktop_bridge.py:310-355 | for any fetch sizes, the emitted items are the groups of consecutive rows, and the end is consistent exactly when their count is the announced total |
| `CatalogTheorems.StreamAgrees` | cli/nektron_moments_cli/desktop_bridge.py:266-355 | for every order the queries may return, the streamed items have the media, paths and number of the catalog |
| `CatalogTheorems.CatalogExactly` | cli/nektron_moments_cli/desktop_bridge.py:266-297 | one item for each chosen media row in the order of the timeline, with its details, its paths in order and the source of the first |
| `CatalogTheorems.StreamIsCatalogExactly` | cli/nektron_moments_cli/desktop_bridge.py:266-355 | the streamed catalog equals the catalog for every order of ties exactly when the first path of each item names one source |
| `CatalogTheorems.UnsettledDiffers` | cli/nektron_moments_cli/desktop_bridge.py:266-355 | otherwise some order the database may choose makes the two name different sources |
| `CatalogTheorems.PagesCoverTimeline` | cli/nektron_moments_cli/desktop_bridge.py:299-308 | following pages of a fixed size gives the whole timeline exactly when it ends by the last page whose offset, at most 2,000,000, is allowed |
| `ImportControl.ManifestImports.CreateImport` | services/api/manifest_import_service.py:105-222 | a repeated key with the same request returns its import, an expired upload gives way to a new import, and every refusal rolls the whole step back |
| `ImportSafety.CreateExactly` | services/api/manifest_import_service.py:105-222 | in every reachable state, a create whose read of the key is fresh is answered exactly by cases: the import of the key with a new expiry, a refusal for another request, an unfinished import that is not an expired upload or an imported snapshot, and else a new import that awaits its upload |
| `ImportSafety.CreatedHolds` | services/api/manifest_import_service.py:105-222 | what a create made or renewed holds its place against other keys exactly until the expiry it was given |
| `ImportSafety.CompletesExactly` | services/api/manifest_import_service.py:250-325 | in every reachable state, a completion whose object matches queues and dispatches an import that still waits, the first time it ever is, and any other changes nothing |
| `ImportSafety.RefreshHolds` | services/api/manifest_import_service.py:224-248 | in every reachable state, a refreshed import holds its place against creates with another key exactly until its new expiry, and no other import changes |
| `ImportSafety.QueuedHolds` | services/api/manifest_import_service.py:298-314 | in every reachable state, a queued import is not queued again, its upload is not refreshed, no create supersedes it at any time, and no other import changes |
| `ImportSafety.OneActiveImport` | services/api/manifest_import_service.py:105-222 | for any interleaving at most one import of an account and source is unfinished |
| `ImportSafety.SameKeySameImport` | services/api/manifest_import_service.py:118-142 | every answered create of one key names the same import and request, even after a stale read of the key |
| `ImportSafety.QueuedAndDispatchedOnce` | services/api/manifest_import_service.py:250-325 | an import is queued at most once, and dispatched by completions at most once |
| `ImportSafety.NeverAwaitsAgain` | services/api/manifest_import_service.py:224-325 | a submitted import never waits for an upload again |
| `Migrations.Connection.Run` | infra/scripts/migrate_enrichment.py:473-507 | an applying run commits exactly the writes of its plan, in order, and ends as the plan says |
| `Migrations.Connection.ApplyMigration` | infra/scripts/migrate_enrichment.py:386-405 | the statements commit one by one up to the first that fails, the index only when it is missing |
| `Migrations.Connection.RunVersion` | infra/scripts/migrate_enrichment.py:485-507 | a recorded version must be satisfied, a satisfied one is only recorded, and any other is applied, verified and recorded |
| `MigrationTheorems.HistoryIsSound` | infra/scripts/migrate_enrichment.py:435-507 | after any runs stopped at any write, a version is recorded at most once and only with its schema satisfied |
| `MigrationTheorems.RunEndsDone` | infra/scripts/migrate_enrichment.py:473-507 | an uninterrupted run ends with every version satisfied and recorded exactly when nothing half-made stands in its way |
| `MigrationTheorems.OneRunMends` | infra/scripts/migrate_enrichment.py:386-507 | after any runs stopped at any write, one uninterrupted run ends with every column, table, index and size of each version there and each version recorded once |
| `MigrationTheorems.BusyExactly` | infra/scripts/migrate_enrichment.py:473-507 | without an idle service a run is refused exactly when an ALTER is due, and then commits nothing |
| `MigrationTheorems.NothingRepeats` | infra/scripts/migrate_enrichment.py:386-450 | over all runs together no ALTER, index or ledger row is committed twice |
| `Framing.WriteManifest` | cli/nektron_moments_cli/bulk.py:209-243 | the written bytes are the framed header and entries with the exact expanded size, or the first violated limit |
| `Framing.WritesExactly` | cli/nektron_moments_cli/bulk.py:164-243 | entries meet no limit exactly when the header and each line are within 256 KiB, each entry is a hashed upsert without a reserved field, and the total is within 1 GiB |
| `Framing.FirstIsBlamed` | cli/nektron_moments_cli/bulk.py:139-243 | a refusal is about the first entry that cannot be written, and says why |
| `Framing.ReadLines` | cli/nektron_moments_cli/bulk.py:277-312 | the bounded reader, line by line |
| `Framing.WrittenIsReadBack` | cli/nektron_moments_cli/bulk.py:117-312 | what the writer emits is read back line by line with the size it reports |
| `Framing.AcceptsExactly` | cli/nektron_moments_cli/bulk.py:277-312 | a byte string is accepted exactly when it is a concatenation of terminated lines within both limits |
| `Framing.FaultsExactly` | cli/nektron_moments_cli/bulk.py:277-312 | a refused stream has the fault reported: after the lines it yields comes a line too long, one not terminated, or one too many |
| `Framing.YieldsFramedPrefix` | cli/nektron_moments_cli/bulk.py:277-312 | even a faulty stream yields only lines within the limit, and they frame a prefix of it |
| `Framing.ReadCountsBytes` | cli/nektron_moments_cli/bulk.py:277-312 | the reported total of an accepted stream is its exact size |
| `ResultFiles.ParseResult` | cli/nektron_moments_cli/bulk.py:358-550 | within the limit the in-memory parser accepts what the records say, with the same error otherwise; beyond it, it always refuses |
| `ResultFiles.EntryExactly` | cli/nektron_moments_cli/bulk.py:358-550 | a record is accepted at its row exactly for the entry it says, field by field |
| `ResultFiles.EntryIsReadBack` | cli/nektron_moments_cli/bulk.py:648-710 | every entry with an item, a known outcome and canonical identifiers is read back from its record as it was |
| `ResultFiles.FileExactly` | cli/nektron_moments_cli/bulk.py:358-550 | a file is accepted exactly when its lines can all be read and are a header and at least one entry, each at its row, and its content is what they say |
| `ResultFiles.ReadResultHeader` | cli/nektron_moments_cli/bulk.py:713-793 | within its limit the streaming reader accepts the same files, with the same header, count and errors |
| `ResultFiles.IterResultEntries` | cli/nektron_moments_cli/bulk.py:796-846 | without an error, the entries after the cursor exactly when the file still has the verified header and count; with one, what was yielded before it are the entries from the cursor on of the records before the first bad one, and the error is that of this record, else of the line reader, else a changed count |
| `ResultFiles.YieldedRows` | cli/nektron_moments_cli/bulk.py:796-846 | whatever the file has become and whatever error ends the stream, the rows yielded are those of the records after the cursor up to the first bad one, each as its record says, none left out |
| `ResultFiles.ResumeIsExact` | cli/nektron_moments_cli/bulk.py:796-846 | on an unchanged verified file, streaming after row k yields exactly rows k+1 to the end, and streaming from the start yields what the in-memory parser returns |
| `ResultFiles.StreamedRows` | cli/nektron_moments_cli/bulk.py:796-846 | whatever the file has become, a stream that ends without an error has exactly the row numbers from the cursor to the verified count |

## Left out

- HTTP, object storage, queues, authentication, key rings, command lines, progress text and process signals: wrappers without a law of their own.
- gzip, SHA-256, JSON and UUID text: a result line arrives decoded, a manifest entry arrives encoded, and the canonical form of a UUID is a parameter.
- Files on disk: checks of existence, size, digest and modification time of artifacts and results, temporary files and their renaming.
- Timestamps, retry delays and leases: order is logical, and a due retry is any later event.
- ScanRun rows, failure texts, request-hash conflicts on a reused key, phases and processed counts of the server.
- Tables of several sources in one LocalState: the manifest tables are those of one source; the description tables and the paid-call journal hold all sources.
- suspend_pending_batches, restore_suspended_batches, discard_outbox and acknowledging without a response: administrative steps outside the engine.
- Descriptions.EveryRunIsConsistent: confirming, skipping and removing a source act on values, not on a class in place; sending, deferring and retrying descriptions change no candidate and are left out.
- Run summaries, description staging and uploads to the server, and search: no law beyond the tables already modelled.
- ByokRunner.run as one loop: its pages, submissions and reaping are steps of the pool protocol; the run limit, preparation cursors and preview contents are not modelled.
- Backend failure flag of a pool: a broken request only stops the pool, so later requests may still succeed in the model.
- Semaphores of the scanner, progress messages and elapsed times.
- Query filters of the catalog: the selected keys are given; page items are compared by media, not by their alias lists or details.
- Rows of a page read while another process replaces the catalog.
- Deleting accounts, sources or imports on the server, and the scheduled republishing of queued imports.
- Dry runs of the migration runner, concurrent runners, and single columns, indexes and constraints of the four import tables: a table is absent, partial or complete.
- Framing.WriteManifest: the compressed size limit and the identifier checks before writing are not modelled.
- SyncExact.DrainedIsExact: asks for batches only and kept replies, because it is the instance of the general condition in SyncAgreement that needs no look at the server.
- SyncImport.ImportCompletes: the waiting entries are all hashed upserts with a revision and a file name; other ones cannot be imported, and go as batches (SyncConvergence).
- Verdict of the server: it may reject any upsert, also one the service has no reason to reject, so the model has more runs than the service.
