# Offline-first sync core: a Dafny model

Each device of this notes archive keeps its rows in a local store, queues every local write in an
outbox, and exchanges rows with a server: it pulls pages ordered by `change_seq`, merges them by
last-write-wins on `updated_at`, drops queued edits that lost, collapses what is left per record and
flushes it parents first. A snapshot archive can be imported on top. This project models that protocol
and proves what it keeps, over any number of devices and every interleaving of their steps. Five
smaller cores are modelled beside it: the chunked image seal, the edit distance of the fuzzy search,
the prompt schedule, the derived embedding queue and reciprocal rank fusion.

`dafny verify dfyconfig.toml` checks everything.

## Layout

| file | what it holds |
|---|---|
| `Data.dfy`, `Seqs.dfy` | cells, rows, tables, columns and the schema tables; order-preserving selection |
| `Replica.dfy` | one device's state as a value, and each store transaction as a function of it |
| `Store.dfy` | the mutable store; its methods are proved against those functions |
| `Outbox.dfy`, `Push.dfy`, `Pull.dfy` | collapse and book-id resolution; flush; paged pull |
| `Fleet.dfy` | server and devices as a state machine, its invariant, and the proof for every step |
| `Timed.dfy` | what the order of a record's enqueue times adds to it |
| `Convergence.dfy`, `Contents.dfy` | runs and what each of them guarantees; a record's stamps and contents on a quiet device |
| `Agreement.dfy`, `Skipped.dfy` | queue against row; the skipped-tombstone case |
| `Paths.dfy`, `Link.dfy` | building paths of the fleet; a page taken and a whole flush as such paths; how a device goes quiet |
| `Synced.dfy` | where one device's own flush and pull leave it |
| `Witness.dfy` | runs from the initial state that show why the hypotheses are there |
| `Import.dfy` | snapshot import |
| `Seal.dfy`, `Search.dfy`, `Prompt.dfy`, `Embedding.dfy`, `Fusion.dfy` | the five independent cores |

The fleet's steps are the same functions the store methods are proved against. `PageIsSteps`,
`FlushIsSteps` and `MergeIsImportSteps` show that taking a page, a whole flush and an import batch are
paths of the fleet. The server is outside the repository; the model uses only
what the code relies on: a write to an existing row lands only if its stamp is strictly newer, every
write that lands gets a fresh larger `change_seq`, a patch never inserts and is acknowledged only with
the patched row, and a call may take effect with its reply lost.

## What the results depend on

- **Queue order.** Collapse orders a record's entries by enqueue time, not by outbox id, and an import
  enqueues at a batch time that may be ahead of the clock. The fleet invariant, the coverage of the
  cursor, the rising queue stamps and the effect of a pull win hold for all enqueue times. That a flush
  sends the row's own stamp, that a newer row is queued, and convergence are proved for each record none
  of whose local writes is queued earlier than its queued writes; nothing is asked of other records, nor
  of devices other than the one that is quiet for it. `NewestStampSentIff` shows that this
  is exactly what the sent stamp depends on, and the run of `ImportAheadOfClock` ends quiet with
  different stamps.
- **Skipped tombstones.** A delete for an unknown record is skipped while the cursor moves on. If the
  record is created locally afterwards there is no stored stamp to clamp against. The device keeps such
  records in `skipped`, the convergence results set them aside, and `CreatedOverTombstoneConvergesIff`
  says exactly when the server takes the created row; the run of `SkippedTombstoneDiverges` shows the
  other case.
- **Partial payloads.** The queue carries only edited columns. Stamps converge for all payloads.
  Contents are proved to converge for each record whose writes are full rows that never share a stamp,
  when a live local write of it over a queued delete goes through a path that drops it, however other
  records are written. Four columns need more (`QuiescentColumn`): a note's `book_id` converges when no
  dispatch of the note remaps a queued id, and a book's `status`, `kind` or `url` when no write of the
  book carries it null. The runs of `RemappedBookIdDiverges` and `FilledStatusDiverges` give up only that
  column, meet every other condition, and end quiet with different cells at one stamp.
- **Dropped tombstones.** A live write drops the record's queued deletes. The queue then agrees with
  the row exactly if the drop is silent on the columns the write leaves out (`StageAgreesIff`); a plain
  write, which drops nothing, breaks the agreement exactly when it is live over a queued delete
  (`PlainWriteAgreesIff`). The run
  of `RevivedWithoutTheFlag` leaves `deleted` out over a queued delete: the row stays deleted and the
  flush would send a live record.
- **Tokens.** That a live note off the embedding queue has a vector read under its present token holds
  in every run. A tag is made from a normal form of the text (case, spacing and trailing punctuation
  aside), so that vector is of the present text up to this normal form, and an edit within it keeps the
  old vector by design. This needs that no token of a note is read as two texts of different normal
  form. Notes stored with the tag of their text keep this however often they are sealed again
  (`TaggedNotesKeepNames`), and `ReusedTokenFoolsTheGuard` shows that the guard needs it.

## Model

| member | source | states |
|---|---|---|
| `FleetModel.StepKeepsInv` | src/sync/pull.rs:149-337 | every step of any device, of the server or of a foreign writer, at whatever enqueue time, keeps the fleet invariant: delivered rows are held no older, queued stamps rise per record to the row's, pages in flight have no gap, acknowledged entries are their record's oldest |
| `FleetModel.WriteGrows` | src/store.rs:1377-1388 | a guarded server write never sets a row back, renumbers every changed row freshly, and leaves the server at least as new as what it accepted |
| `FleetModel.RebaseDropsAll` | src/store.rs:1221-1269 | when a strictly newer row is applied, the entries it proves stale are exactly all entries of that record |
| `FleetModel.NewestQueued` | src/store.rs:1406-1456 | the last queued entry of a record carries the local row's own stamp |
| `FleetModel.SendsQueuedStamp` | src/sync/push.rs:181-265 | whatever the enqueue times and remaps, a flush sends the stamp of one of the record's queued entries, never a newer one than the row's |
| `TimedModel.SendsRowStamp` | src/sync/push.rs:181-265 | if a record's queued entries are in time order, a flush sends the local row's own stamp, whatever the remaps |
| `TimedModel.StepKeepsTimed` | src/sync/push.rs:143-279 | for any record, every step, at any time if it writes another record and in time order if it writes this one, keeps: the record's acknowledged entries are on the server, and a local row newer than the server's is queued under its stamp |
| `FleetModel.FlushSends` | src/sync/push.rs:154-257 | what the flush dispatches for a group is what the fleet's dispatch step sends under the remaps in force |
| `LinkModel.PageIsSteps` | src/sync/pull.rs:193-301 | taking an honest page is one fetch, one merge per row and one advance of the fleet |
| `LinkModel.FlushIsSteps` | src/sync/push.rs:143-279 | a whole flush, whatever the sink answers as long as an accepted patch found its row, is one dispatch step per group sent and one clear, and leaves the same queue |
| `LinkModel.DeviceGoesQuiet` | src/sync/pull.rs:114-144 | from any state, one flush with every group acknowledged and paging every table to its end, with no write in between, leaves a device's outbox empty and its cursors past every server row |
| `ConvergenceModel.RunKeepsInv` | src/sync/pull.rs:149-337 | the invariant holds in every state of every run |
| `ConvergenceModel.FleetInvariant` | src/sync/pull.rs:149-337 | in every reachable state each server row at or below a cursor is no newer than the local copy or a skipped tombstone, and each record's queued stamps strictly rise to the row's stamp |
| `ConvergenceModel.RunKeepsTimed` | src/sync/push.rs:143-279 | for any record, the timed part holds in every state of every run in which that record's writes are queued in time order |
| `ConvergenceModel.NewerRowsAreQueued` | src/store.rs:1406-1456 | in every state of a run in which a record's writes are queued in time order, its local row, if newer than the server's, has a queued entry with its stamp |
| `ConvergenceModel.StampsRise` | src/store.rs:1406-1505 | a record's queued stamps strictly increase with outbox order and the last equals the row's |
| `ConvergenceModel.PullWinDropsTheRecord` | src/sync/pull.rs:255-276 | a pull win removes every entry of its record and no other, keeps the rest in order, and reports the newest discarded stamp, which is the replaced row's |
| `ConvergenceModel.RecordConvergence` | src/sync/pull.rs:239-276 | for one record whose writes are queued in time order and one device with none of it queued and its cursor past the record's row: held, it has the server's stamp, not held, it is a tombstone on the server; created over a skipped tombstone, it can only be older |
| `ConvergenceModel.QuiescentConvergence` | src/sync/pull.rs:239-276 | so in every timed run, once outboxes are empty and cursors past every row, this holds for every device and every record |
| `ConvergenceModel.DispatchInserts` | src/sync/push.rs:71-109 | a server row inserted by a dispatch carries the columns its table cannot be inserted without |
| `ConvergenceModel.NoHollowRows` | src/sync/push.rs:71-109 | so in every state of every run each server row carries them, as long as other writers insert complete rows |
| `ContentsModel.StepKeepsContents` | src/store.rs:1419-1456 | for any record: if its writes are full rows that share no stamp and a live one over a queued delete drops it, every step keeps its rows, queued payloads and rows in flight, cell by cell, the one recorded version of their stamp, on every column not given up for it: a note's book id while dispatches of the note leave it in place, a book's status, kind and url while no write of the book carries them null |
| `ContentsModel.SendsLastVersion` | src/sync/push.rs:244-277 | for a record with full-row entries the collapsed, prepared payload is the last queued version, on the same columns |
| `ContentsModel.QuiescentContents` | src/sync/pull.rs:239-276 | a device quiet for such a record, if it holds it, holds the very cells the server has: in all columns when none is given up, else in all but the given up ones among the four that need more; other records and devices are free |
| `ContentsModel.QuiescentColumn` | src/sync/pull.rs:239-276 | column by column the local cell is the server's cell: a note's book id when no dispatch of the note remaps it, a book's status, kind or url when no write of the book carries it null, every other column always |
| `SyncedModel.SyncConverges` | src/sync/mod.rs:2892-2924 | from every state of every run, the flush of one sync with every group acknowledged and every accepted patch on its row, and the pull of the next, with no other step in between, bring the device to the server's stamp for every record written in time order, and to its contents for every record written full-row and tie-free as well, a note's book id aside |
| `AgreementModel.NewestStampSentIff` | src/sync/outbox.rs:47-112 | for rising stamps the collapsed stamp is the newest one if and only if no entry was enqueued later than the last |
| `WitnessModel.ImportAheadOfClock` | src/store.rs:1497-1502 | a run: a full row imported at time 10 with stamp 10, edited at time 5, flushed, acknowledged, cleared and pulled ends quiet with stamp 11 on the device and 10 on the server |
| `AgreementModel.StageAgreesIff` | src/store.rs:1313-1329 | after a live write the queue agrees with the row if and only if the tombstone drop is silent on the columns left out, told by the entries: for the flag, none was dropped or no survivor carries it; for another column, its last survivor gave the value its last carrier gave |
| `AgreementModel.PlainWriteAgreesIff` | src/store.rs:1280-1293 | after a plain write the queue agrees with the row if and only if it is not a live write, flag and all, over a queued delete |
| `AgreementModel.CarryingWriteIsSilent` | src/store.rs:886-913 | a write that carries the dropped tombstones' columns is silent |
| `AgreementModel.RevivingWithoutTheFlag` | src/store.rs:1467-1478 | a reviving write without `deleted` over a queued delete and an entry that carries the flag leaves queue and row in disagreement |
| `WitnessModel.RevivedWithoutTheFlag` | src/store.rs:1467-1478 | a run: created, deleted, revived without the flag; the row is deleted and the flush would send a live record |
| `AgreementModel.SuffixSays` | src/store.rs:917-924 | after the oldest entries of a queue whose deletes are followed by deletes only are cleared, what remains says nothing the whole did not say |
| `AgreementModel.StepKeepsAgreement` | src/store.rs:1467-1505 | for any record, every step keeps its queue and row in agreement on every column, at whatever enqueue time, when its own writes drop silently |
| `AgreementModel.SentAgreesWithRow` | src/sync/outbox.rs:47-112 | over every run in which a record's writes are in time order and drop silently, every cell of the payload a flush sends for it is the local row's, stamp and flag as they are stored; a note's book id is the row's, resolved |
| `SkippedModel.CreateForgotten` | src/store.rs:1413-1454 | a record created over a skipped tombstone is stored and queued with its claimed stamp, unclamped |
| `SkippedModel.CreatedOverTombstoneConvergesIff` | src/sync/pull.rs:236-242 | created, flushed with every reply delivered and cleared, the server holds the created row if and only if its claimed stamp is strictly above the tombstone's; at or below it the server is unchanged, the device live and nothing queued |
| `WitnessModel.ReachesForgotten` | src/sync/pull.rs:218-242 | a run in which a device pulls and skips a tombstone |
| `WitnessModel.SkippedTombstoneDiverges` | src/sync/pull.rs:236-242 | that run continued ends quiet with a live row at stamp 5 on the device and a tombstone at stamp 100 on the server |
| `WitnessModel.RemappedBookIdDiverges` | src/sync/push.rs:185-194 | for every note row under a book the flush remaps, a run ends quiet with the old id on the device, the survivor's on the server, at one stamp; if the row is full, the run is full-row and tie-free with only the note's book id given up |
| `WitnessModel.FilledStatusDiverges` | src/sync/pull.rs:277-289 | a run, full-row and tie-free with only the book's status given up, ends quiet with status x on the device, y on the server, both at stamp 5 |
| `ReplicaModel.AppliedCells` | src/store.rs:1169-1193 | a pulled row that is new or strictly newer is stored in every descriptor column as fetched, NULL where it has none, a 64-bit stamp kept, the flag read as a boolean; other records keep their rows |
| `ReplicaModel.StageStoresCells` | src/store.rs:1406-1456 | after a staged write each column it carries holds its cell, each other column the cell it had |
| `ReplicaModel.AuthoredIsKept` | src/store.rs:234-457 | no column a user or device authors, named table by table, is lost or changed by storing |
| `ReplicaModel.DeleteMeans` | src/store.rs:140-147 | an entry is a delete exactly when it carries the flag with a value other than null, false, zero, an empty string, "0", "false", an array or an object |
| `StoreModel.Store.ClearOutbox` | src/store.rs:917-924 | removes exactly the given ids and keeps the order of the rest |
| `StoreModel.Store.DropPendingDeletesInner` | src/store.rs:886-913 | removes exactly the record's entries whose `deleted` cell reads as true, leaves corrupt payloads, and returns how many |
| `StoreModel.Store.ApplyRowRebasingOutbox` | src/store.rs:1221-1269 | stores the row cell by cell as fetched, drops and returns exactly the record's entries stamped at or below the incoming stamp |
| `StoreModel.Store.FillNullBookColumns` | src/store.rs:1094-1109 | changes only null status, kind and url cells, each to the incoming string where there is one; every other cell, the stamp, the flag and the queue stand |
| `StoreModel.ClampStamp` | src/store.rs:1414-1447 | a claimed stamp ends strictly above the stored one and never below the claim; at the top of the range the write is refused |
| `StoreModel.Store.StageWriteInner` | src/store.rs:1406-1456 | the row holds every cell the partial carries and keeps the others, the clamped partial is queued last; nothing changes on refusal |
| `StoreModel.Store.StageLocalWrite` | src/store.rs:1280-1293 | the same as one transaction |
| `StoreModel.Store.StageLocalWriteResurrecting` | src/store.rs:1467-1478 | drop and stage, or neither |
| `StoreModel.Store.StageLocalWrites` | src/store.rs:1313-1331 | the whole batch or nothing; each live write first drops its own tombstones |
| `StoreModel.Store.StageLocalWriteExistingLive` | src/store.rs:1342-1370 | stages the patch with all its companions exactly when the target exists, is live and every write can be staged; otherwise nothing |
| `StoreModel.Store.StageImportBatch` | src/store.rs:1484-1505 | every row replaced and queued at the batch time in the given order, with its tombstones dropped |
| `OutboxModel.ResolveBookId` | src/sync/outbox.rs:118-127 | stops on a node the chain reaches within twenty hops |
| `OutboxModel.WalkReachesTheEnd` | src/sync/outbox.rs:118-127 | the result is an end of the chain if and only if one lies within twenty hops, and then it is that end |
| `OutboxModel.ChainResolves` | src/sync/outbox.rs:118-127 | a chain of up to twenty hops resolves to its end, a longer one to its twenty-first id |
| `OutboxModel.ResolveTwice` | src/sync/push.rs:185-194 | resolving in the collapse and again under a remap grown since equals resolving once under the grown one |
| `PushModel.RemapExtendsIff` | src/sync/push.rs:250-257 | a flush only extends the remap if and only if it maps no book that was mapped already to another id |
| `PushModel.FlushResolvesOnce` | src/sync/push.rs:185-194 | a dispatched note's book id, resolved by the collapse and by the flush, is its queued id resolved once under the remap in force |
| `OutboxModel.Collapse` | src/sync/outbox.rs:47-112 | one group per (table, record) of the input, each as the stable sort, fold and repointing of its entries |
| `OutboxModel.CollapseMeaning` | src/sync/outbox.rs:47-112 | under any remap a field is present exactly when some entry carries it, has the value of its last carrier in stable time order, a note's book id resolved, and the group is deleted exactly when any of its payloads was |
| `OutboxModel.CollapsePartition` | src/sync/outbox.rs:47-112 | every id lies in its own group and in no other, and no group gains or loses one |
| `OutboxModel.SortFilter` | src/sync/outbox.rs:53 | the stable sort commutes with selecting a group |
| `PushModel.DispatchGroup` | src/sync/push.rs:182-265 | one more group is held exactly when a parent failed, else sent as a patch exactly when an insert column of its table is missing, else as an upsert; parents-first, cause of every hold, ids and remap stay right |
| `PushModel.FlushTable` | src/sync/push.rs:181-265 | handles every group of one table once, in any order |
| `PushModel.SparseMeans` | src/sync/push.rs:87-109 | a payload is sparse exactly when it lacks one of the insert columns, written out per table |
| `PushModel.MentionsMeans` | src/sync/push.rs:115-131 | the foreign keys are exactly a note's book, a link's two notes, a membership's note and collection, a signal's note, an attachment's question and note |
| `PushModel.Flush` | src/sync/push.rs:143-279 | for every queue and every pattern of sink answers: dispatch parents first, each group once, as a patch exactly when an insert column is missing, each parseable entry of a synced table in exactly one of ok and failed, final queue the initial one minus exactly ok in order, remap grown by flushed books |
| `PushModel.QueuedParentsFirst` | src/sync/push.rs:203-230 | a dispatched row that names a queued record as its parent follows that parent's own successful dispatch |
| `PushModel.PayloadNamesRecord` | src/sync/push.rs:213-220 | when payloads carry their primary key, the collapsed payload still names its record |
| `PushModel.ParentRankLower` | src/sync/push.rs:115-131 | the table order is topological for the foreign keys |
| `PushModel.HeldTraces` | src/sync/push.rs:222-235 | everything left queued traces along foreign keys to an actual sink failure |
| `PushModel.AcceptingSinkDrains` | src/sync/push.rs:143-279 | if the sink accepts everything nothing fails, and the outbox keeps exactly the corrupt entries and those of tables that are not synced |
| `PushModel.IdsSplit` | src/sync/push.rs:154-279 | an entry is in ok or failed exactly when its table is synced, never in both |
| `PullModel.MergeOne` | src/sync/pull.rs:196-290 | the last-write-wins decision for one row, its effect and its counts |
| `PullModel.MergePage` | src/sync/pull.rs:193-290 | a page merges row by row; the watermark is the maximum over rows with a key |
| `PullModel.TakePage` | src/sync/pull.rs:193-301 | the cursor is persisted only after the whole page is merged, and only forward |
| `PullModel.PullTable` | src/sync/pull.rs:149-337 | terminates; every request follows from the one before, a full page moving the cursor to its highest number and a transport failure tried once more; it ends in success exactly on a page that is not full, and in failure exactly on a refusal, a second transport failure or a full page with no number above the cursor; against an honest table a finished pull equals one pass over every row above the cursor, a failed one a pass over whole pages, and one that is always answered finishes; a receipt is written exactly by a finished pull; other tables are untouched |
| `PullModel.MaxSeqIs` | src/sync/pull.rs:196-212 | the watermark of a page is its highest number above the cursor, or the cursor when there is none |
| `PullModel.HonestAnswersSucceed` | src/sync/pull.rs:164-329 | honest answers to every request give no cause for failure |
| `PullModel.Pull` | src/sync/pull.rs:114-144 | a failing table does not disturb the others: at the end every finished table's rows are settled against the state before the pull, receipts are exactly those of finished tables, counts add up; with honest sources that answer, exactly the tables that are not synced fail |
| `PullModel.PageStep` | src/sync/pull.rs:164-319 | an honest page continues the single pass, moves the cursor unless empty, and is short only at the end |
| `PullModel.MergedBeatenOrSkipped` | src/sync/pull.rs:196-290 | after a pass every fetched row was applied, beaten by a row at least as new, or skipped as an unknown tombstone, decided on the state before the pass |
| `PullModel.MergeLeavesOthers` | src/sync/pull.rs:196-290 | records a pass does not mention keep their rows |
| `PullModel.NewestStampIs` | src/sync/pull.rs:262-276 | the discarded stamp that is reported is the newest of the dropped entries |
| `ImportModel.ValidatePullPage` | src/sync/export_import/merge.rs:86-117 | accepts exactly the pages of well-formed rows strictly ascending above the cursor |
| `ImportModel.ValidPageIsTaken` | src/sync/export_import/merge.rs:86-117 | on an accepted page the pull ignores no row and its cursor moves exactly to the last one |
| `ImportModel.TakeCopies` | src/sync/export_import/merge.rs:164-180 | accepts a chunk's answer exactly when every row is well-formed, requested and new |
| `ImportModel.FetchCandidateState` | src/sync/export_import/merge.rs:141-185 | against a faithful sink the preflight returns exactly the server's rows under the ids asked for, and fails exactly if the request for some hundred of them fails |
| `ImportModel.Select` | src/sync/export_import/merge.rs:187-278 | accepts exactly the candidates strictly newer than local and server copy, counts both kinds per table, fails exactly on an unreadable stamp or a full counter |
| `ImportModel.ImportTablesAre` | src/sync/export_import/merge.rs:411-421 | an archive restores every synced table but questions, their attachments and settings |
| `ImportModel.CountsAddUp` | src/sync/export_import/merge.rs:217-222 | imported plus skipped is the number of candidates, table by table |
| `ImportModel.NewestBounds` | src/sync/export_import/merge.rs:267-275 | the newest compared stamp bounds every stamp compared for an accepted row |
| `ImportModel.PreparedRow` | src/sync/export_import/merge.rs:320-378 | a prepared row has every column, names its record, is live, carries the batch stamp, and is the archive's row outside sealed and kept columns |
| `ImportModel.ArchiveNeverOverrules` | src/sync/export_import/merge.rs:223-266 | a book keeps the status, kind and url its own copies give, the newer copy that gives one ruling and the local one at equal stamps; only what no copy gives comes from the archive, a kind only for a book new here, else shelved, book and nothing; a url counts only if it opens here and leaves sealed |
| `ImportModel.NoteLeavesEncrypted` | src/sync/export_import/merge.rs:320-378 | a note's text leaves only encrypted, with the tag of the text and its book; without a text both are null |
| `ImportModel.PreparesIff` | src/sync/export_import/merge.rs:320-378 | every row can be prepared but a note whose text, or whose book id beside a text, is neither a string nor null |
| `ImportModel.PrepareAll` | src/sync/export_import/merge.rs:296-299 | all rows prepared in order, or an error |
| `ImportModel.SelectPrepareAndStage` | src/sync/export_import/merge.rs:187-309 | stages the whole batch or nothing; succeeds exactly when every stamp is readable, counters fit, the stamp can advance and every row prepares |
| `ImportModel.BatchBeatsEveryCopy` | src/sync/export_import/merge.rs:267-294 | the batch stamp is at least now, exceeds the archive's, the local and the server stamp of every accepted row, and is now or one above a compared stamp |
| `ImportModel.MergedRows` | src/store.rs:1484-1505 | after a merge accepted records are live at the batch stamp with the archive's cells outside kept and sealed columns, and all others are as before |
| `ImportModel.SecondMergeIsIdle` | src/sync/export_import/merge.rs:187-309 | merging the same archive again with no copy set back accepts nothing and changes nothing |
| `ImportModel.MergeIsImportSteps` | src/sync/export_import/merge.rs:296-302 | each write of the batch is an enabled full-row import step of the fleet, and in time order when nothing is queued later than now |
| `SealModel.SealWith` | src/image_encryption.rs:102-145 | produces the one layout of the image, or refuses exactly above 2^32 - 1 chunks of 256 KiB; the counter stays below its limit at every full chunk |
| `SealModel.PiecePositions` | src/image_encryption.rs:122-143 | chunk positions run from zero without a gap, only the last is flagged, and the count is the rounded-up quotient |
| `SealModel.NonceInjective` | src/image_encryption.rs:122 | the nonce determines counter and flag |
| `SealModel.NonceBytes` | src/image_encryption.rs:117-143 | seven bytes of prefix, the position with its highest byte first, and 1 for the last piece |
| `SealModel.NoncesDiffer` | src/image_encryption.rs:111-143 | no two chunks of an image share a nonce and the counter never leaves 32 bits |
| `SealModel.LayoutOfImage` | src/image_encryption.rs:171-180 | the division and remainder recover the chunk count, and it is within the cap exactly when the image is |
| `SealModel.SealedLength` | src/image_encryption.rs:102-145 | a sealed image is 76 bytes longer than the image, and 16 more for each chunk begun, at least one |
| `SealModel.NoncanonicalFrom` | src/image_encryption.rs:177-180 | a final piece shorter than a tag, or empty after a full chunk, never opens |
| `SealModel.OpenFromExactly` | src/image_encryption.rs:182-204 | decrypting a body piece by piece yields pt if and only if sealing pt yields that body |
| `SealModel.OpenChunks` | src/image_encryption.rs:186-204 | the indexed loop over a canonical body computes that piecewise decryption |
| `SealModel.OpenExactly` | src/image_encryption.rs:102-204 | the whole file opens to pt if and only if some data key, wrap IV and prefix make sealing produce those very bytes |
| `SealModel.SoundCipherExists` | src/image_encryption.rs:102-204 | the assumption on the cipher can be met |
| `SealModel.Open` | src/image_encryption.rs:151-204 | the same of the method, with one error for every failure |
| `SealModel.ImageIdForPath` | src/image_encryption.rs:34-58 | yields an id exactly when the path is user id, slash, valid id, extension |
| `SealModel.UserIdCharacters` | src/image_encryption.rs:46-54 | a user id is a lower-case UUID |
| `SealModel.ImageIdCharacters` | src/image_encryption.rs:56-60 | an image id is one to 64 letters, digits and dashes |
| `SealModel.PathIsUnique` | src/image_encryption.rs:34-43 | a path belongs to at most one user and one image |
| `SealModel.AadInjective` | src/image_encryption.rs:62-70 | the associated data determines both ids |
| `SealModel.AadFields` | src/image_encryption.rs:62-70 | the associated data is `encimg:v1` and each id behind its length in two bytes, the high one first |
| `SearchModel.Levenshtein` | src/search.rs:286-306 | the swapped two-row table computes the recursive edit distance |
| `SearchModel.FillRow` | src/search.rs:297-303 | one pass over the current row computes the next row of distances |
| `SearchModel.NoShorterScript` | src/search.rs:284-286 | no sequence of inserts, deletes and replacements between two strings is shorter than the distance |
| `SearchModel.ShortestScript` | src/search.rs:284-286 | some sequence is exactly that short |
| `SearchModel.DistanceBounds` | src/search.rs:286-306 | between the difference of the lengths and the longer length |
| `SearchModel.DistanceSymmetric` | src/search.rs:286-306 | symmetric |
| `SearchModel.DistanceZero` | src/search.rs:286-306 | zero exactly on equal strings |
| `SearchModel.DistanceTriangle` | src/search.rs:286-306 | obeys the triangle inequality |
| `SearchModel.WeightBounds` | src/search.rs:151-166 | a term's weight is positive exactly when it extends the query or is within the fuzzy distance, and 1 exactly when equal |
| `SearchModel.AllowedDistance` | src/search.rs:176-179 | no edit is allowed up to two characters, one from three on and one more for every five further, up to six |
| `SearchModel.WeightIs` | src/search.rs:151-166 | the weight of an extension times its length and three tenths of what it adds is 0.375 of its length; that of a near miss times its length and distance is 0.45 of its length; beyond the allowed distance it is zero |
| `SearchModel.WeightFalls` | src/search.rs:151-166 | the longer of two extensions weighs less, and of two near misses of one length the farther one |
| `SearchModel.BestFieldWeight` | src/search.rs:147-172 | the best weight is attained and not exceeded; positive exactly when a term matches, 1 exactly when the query occurs |
| `PromptModel.ClampCadence` | src/prompt.rs:154-156 | any cadence lands in 72 to 672 hours, one inside is kept |
| `PromptModel.NextEvents` | src/prompt.rs:289-365 | one or two events in due order; a check-in exactly when a question is active; a nudge beside the initial prompt exactly in the first day of an account that neither answered nor skipped |
| `PromptModel.CheckinDueTime` | src/prompt.rs:233-250 | with an open question the one event is a check-in, one clamped cadence after the latest answer that counts, or after the oldest open question was asked |
| `PromptModel.InitialDueTime` | src/prompt.rs:289-365 | without one the initial prompt is due one cadence after the latest close or skip that counts, or at the account's creation; the only other event is a nudge a day after that |
| `PromptModel.NudgeShowsIff` | src/prompt.rs:260-268 | the question nudge shows exactly above eight open questions without a dismissal in the last four weeks |
| `PromptModel.AnchorIsLatest` | src/prompt.rs:209-250 | the anchor is the maximum of the bounded interactions |
| `PromptModel.AnchorNeverRetreats` | src/prompt.rs:209-215 | the anchor never decreases as time grows |
| `PromptModel.AnchorStands` | src/prompt.rs:209-215 | the anchor stands still while time crosses no stamp |
| `PromptModel.DueExactlyWhenQuiet` | src/prompt.rs:209-250 | the anchored due time has come exactly after a cadence without births or past stamps |
| `PromptModel.MainIsScheduled` | src/prompt.rs:289-365 | the schedule contains exactly one prompt besides a nudge, at the main due time |
| `PromptModel.ScheduleIsStable` | src/prompt.rs:289-365 | for a fixed state the due time never moves back, stands still between stamps, and is at most a cadence after now or a birth |
| `PromptModel.DueAfterQuiet` | src/prompt.rs:289-365 | the main prompt is due exactly when nothing it is anchored on happened within the last cadence |
| `PromptModel.EventuallyDue` | src/prompt.rs:289-365 | absent saturation it is due at every late enough time |
| `PromptModel.OrderIsIrrelevant` | src/prompt.rs:233-365 | the events do not depend on the order of the questions |
| `PromptModel.NudgeReturns` | src/prompt.rs:260-268 | a dismissal silences the question nudge for one stretch and no longer |
| `EmbeddingModel.EmbeddingStore.ApplyRow` | src/store.rs:1169-1201 | a deleted note is not live and has no vector, one stored live is live with its tag and stamp and keeps the vector it had, and every other note keeps its token and vector |
| `EmbeddingModel.EmbeddingStore.UpsertEmbeddingIfCurrent` | src/store.rs:1592-1610 | writes exactly when the note is live and has the tag that was read, or no tag and the stamp that was read; otherwise the queue is unchanged |
| `EmbeddingModel.EmbeddingStore.DeleteEmbeddingsNotMatching` | src/store.rs:1624-1638 | keeps exactly the rows of the key, and that key's queue |
| `EmbeddingModel.EmbeddingStore.SweepOrphanEmbeddings` | src/store.rs:1644-1657 | keeps exactly the rows of live notes |
| `EmbeddingModel.SweepKeepsQueue` | src/store.rs:1644-1657 | sweeping changes no queue |
| `EmbeddingModel.UpsertDrainsOne` | src/store.rs:1592-1610 | a stored vector takes exactly its note off its key's queue |
| `EmbeddingModel.StepKeepsInv` | src/sync/mod.rs:3445-3519 | every step, with any number of embeds in progress, keeps each vector read under its row's token and made with its row's model |
| `EmbeddingModel.QueueIsSound` | src/store.rs:1829-1847 | in every run a live note off the queue has a row of the key under the note's tag, or without one its stamp, whose vector was read under that token; a vector is returned as current only for such a note |
| `EmbeddingModel.EditRequeuesIff` | src/store.rs:1901-1903 | a live row stored over a note off the queue leaves it off exactly when it has the same tag, or neither has one and the stamps are equal; otherwise it is back on every queue and no vector is current |
| `EmbeddingModel.CurrentWasRead` | src/store.rs:1829-1847 | in every run what is stored for a live note off the queue is what the note read as when it had its present tag, or no tag then and now and its present stamp |
| `EmbeddingModel.TextIsCurrent` | src/store.rs:1829-1847 | where no token is read as two texts of different normal form, that vector is of the note's present text up to the normal form, and a skip marker stands exactly where there is none to embed |
| `EmbeddingModel.TaggedNotesKeepNames` | src/store.rs:1901-1903 | notes stored with the tag of their text, or tagless at a new stamp, keep tokens read as one normal form, whatever their ciphertext |
| `EmbeddingModel.NormalTagDetermines` | src/content_tag.rs:20-26 | a collision-free tag of the normal form determines the normal form |
| `EmbeddingModel.FinishOrRequeue` | src/sync/mod.rs:3445-3519 | a finished embed drains its note exactly if the token still stands, and changes nothing otherwise |
| `EmbeddingModel.ReusedTokenFoolsTheGuard` | src/store.rs:1592-1610 | if a note is overwritten in mid-embed by a row that reads otherwise under the same token, the old text's vector is returned as current |
| `FusionModel.Fuse` | src/fusion.rs:160-197 | every document of either list once, with the sum of its reciprocal ranks and its flags, strictly ordered, for any drain order of the map; the semantic hits are notes |
| `FusionModel.Accumulate` | src/fusion.rs:170-184 | the map holds exactly the documents of both lists with their sums |
| `FusionModel.FusionUnique` | src/fusion.rs:186-197 | the result is unique, so the map's iteration order does not matter |
| `FusionModel.EachOnce` | src/fusion.rs:160-197 | no document appears twice |
| `FusionModel.BeforeTotal` | src/fusion.rs:189-206 | the order is asymmetric and total on distinct documents |
| `FusionModel.TiesAreOrdered` | src/fusion.rs:186-206 | scores fall; of two equal ones the smaller id comes first, a note before an idea of the same id |
| `FusionModel.RankSumOnce` | src/fusion.rs:161 | in a list without repeats a document at zero-based rank i contributes 1 / (61 + i) |
| `FusionModel.OneListPassesThrough` | src/fusion.rs:160-197 | a single list comes out in its own order |
| `FusionModel.AgreementWins` | src/fusion.rs:157-184 | a document in both lists precedes any in one list only at no better a rank |

## Left out

- FlushTable: handles the groups of a table in any order, where the code follows the key order of its map; the results hold for every order.
- PullTable: the single-pass result takes the server's table as fixed during one pull; writers that move during a pull are in the fleet model.
- StepKeepsInv: covers stamped writes; unstamped partials are staged by `StageWriteInner` but are not fleet steps.
- NextEvents: models due times and kinds; the tone that rides on every event is left out.
- Fuse: scores are reals, not rounded floating point; the hits' display fields are left out.
- WeightBounds: weights are reals; no claim is made that every prefix weight exceeds every fuzzy one.
- Collapse: groups are keyed by the pair of table and record, where the code joins them with a colon; no table name contains one.
- JSON-to-SQL coercion is modelled for `updated_at` and `deleted` only; other cells are stored as they are.
- A content tag and a stamp token are kept apart as two kinds of token, where the code relies on their spelling.
- SQL text, schema creation, migration and the one-time conversion of old attachment overrides.
- Disk and SQL failures: a transaction commits as a whole or its precondition fails.
- HTTP, headers, tokens and user ids; the sink is an arbitrary pattern of answers.
- Ciphers, key derivation, randomness and wiping: the cipher is any function that adds a 16-byte tag and decrypts exactly its own encryptions.
- Parsing and normalising an archive: import starts from parsed candidates.
- Post-pull reconciliation and the engine wrapper that holds the store lock across a pull or a flush.
- Question embeddings, failure memory and the choice of which pending notes to embed next.
- Tokenisation, stemming and scoring of whole documents; vector arithmetic and the relevance floor.
- Read models, library filters and exports, which would add only easy members.
