/** A whole import: from every start with hashed upserts waiting, a run of the engine
    and the server queues them, uploads them, merges them and applies the result. */
module SyncImport {
  import opened Options
  import opened Manifest
  import opened Outbox
  import opened Planning
  import opened SyncProtocol
  import opened SyncInvariant
  import opened SyncSteps
  import opened SyncTables
  import opened SyncClient
  import opened SyncTheorems
  import opened SyncRecords
  import opened SyncProgress
  import BulkRefinement
  import OutboxLaws

  // ---------- what is captured ----------

  lemma {:induction false} AllMembers(outbox: seq<Batch>, ids: set<nat>)
    requires forall b :: b in outbox && b.state == Pending ==> b.id in ids
    ensures Members(outbox, ids) == PendingOf(outbox)
  {
    if outbox != [] {
      assert outbox == outbox[..|outbox| - 1] + [outbox[|outbox| - 1]];
      AllMembers(outbox[..|outbox| - 1], ids);
    }
  }

  ghost predicate DistinctIds(ids: seq<nat>) {
    forall i, j :: 0 <= i < j < |ids| ==> ids[i] != ids[j]
  }

  lemma {:induction false} DedupDistinct(ids: seq<nat>)
    requires DistinctIds(ids)
    ensures Dedup(ids) == ids
  {
    if ids != [] {
      var front := ids[..|ids| - 1];
      DedupDistinct(front);
      assert ids[|ids| - 1] !in front;
    }
  }

  lemma PendingIds(outbox: seq<Batch>, nextId: nat)
    requires UniqueRows(outbox, nextId)
    ensures DistinctIds(IdList(PendingOf(outbox)))
  {
    OutboxLaws.PendingDistinct(outbox);
  }

  /** The captured rows of batches are their entries, in order. */
  lemma {:induction false} RowsOfBatches(outbox: seq<Batch>, nextId: nat, batches: seq<Batch>)
    requires UniqueRows(outbox, nextId) && forall b :: b in batches ==> b in outbox
    ensures RowsOf(outbox, IdList(batches)) == EntriesOf(batches)
  {
    if batches != [] {
      var n := |batches| - 1;
      RowsOfBatches(outbox, nextId, batches[..n]);
      assert IdList(batches)[..n] == IdList(batches[..n]);
      assert batches[n] in batches && batches[n] in outbox;
      var i :| 0 <= i < |outbox| && outbox[i] == batches[n];
      EntriesAtRow(outbox, i);
    }
  }

  /** Every pending batch is captured, with all its rows. */
  lemma CapturesAll(db: Db)
    requires UniqueRows(db.outbox, db.nextId)
    ensures var ids := Dedup(IdList(PendingOf(db.outbox)));
            && ids == IdList(PendingOf(db.outbox)) && RowsOf(db.outbox, ids) == EntriesOf(PendingOf(db.outbox))
            && Members(db.outbox, SetOf(ids)) == PendingOf(db.outbox) && IdsOf(PendingOf(db.outbox)) == SetOf(ids)
  {
    var pending := PendingOf(db.outbox);
    PendingIds(db.outbox, db.nextId);
    DedupDistinct(IdList(pending));
    PendingMembers(db.outbox);
    RowsOfBatches(db.outbox, db.nextId, pending);
    forall b | b in pending ensures b.id in SetOf(IdList(pending)) {
      var k :| 0 <= k < |pending| && pending[k] == b;
      assert IdList(pending)[k] == b.id;
    }
    AllMembers(db.outbox, SetOf(IdList(pending)));
    forall id | id in SetOf(IdList(pending)) ensures id in IdsOf(pending) {
      var k :| 0 <= k < |pending| && IdList(pending)[k] == id;
      assert pending[k] in pending;
    }
  }

  // ---------- the states of the run ----------

  /** Hashed upserts wait, each with all a result needs to be applied. */
  ghost predicate Importable(start: World) {
    && Fresh(start) && EntriesOf(PendingOf(start.db.outbox)) != []
    && forall e :: e in EntriesOf(PendingOf(start.db.outbox)) ==>
         HashedUpsert(e) && e.revision != "" && e.fileName != ""
  }

  function Pendings(start: World): seq<Batch> {
    PendingOf(start.db.outbox)
  }

  function Item(start: World): BulkItem {
    NewBulk(start.db, FILE.(entryCount := |EntriesOf(Pendings(start))|), Pendings(start))
  }

  /** The client with one item, in front of a server, at a point. */
  function With(start: World, item: BulkItem, s: Server, pc: Pc): World {
    World(start.db.(bulks := [item], nextId := start.db.nextId + 2), s, pc)
  }

  function Serving(start: World, occurrences: Inventory, status: ImportStatus, merged: bool): Server {
    start.server.(occurrences := occurrences,
                  imports := [Import(start.db.nextId, EntriesOf(Pendings(start)), status, merged, false)])
  }

  function Awaiting(start: World): Server {
    Serving(start, start.server.occurrences, AwaitingUpload, false)
  }

  function BoundAt(start: World): BulkItem {
    Reported(BoundItem(Item(start), 0, AwaitingUpload), AwaitingUpload)
  }

  lemma OneItem(item: BulkItem, changed: BulkItem)
    ensures FindBulk([item], item.id) == Some(0) && [item][0 := changed] == [changed]
  {
  }

  // ---------- queueing and binding ----------

  lemma Starts(start: World)
    requires Importable(start)
    ensures Step(start, Start) == start.(pc := Delivering)
  {
  }

  /** Hashed upserts can be captured when no item is there. */
  lemma QueuesAll(db: Db, ids: seq<nat>, entries: seq<Entry>, artifact: Artifact)
    requires db.bulks == [] && ids == Dedup(ids) && entries == EntriesOf(Members(db.outbox, SetOf(ids)))
    requires IdsOf(Members(db.outbox, SetOf(ids))) == SetOf(ids) && forall e :: e in entries ==> HashedUpsert(e)
    requires artifact.bytes > 0 && artifact.entryCount == |entries| > 0
    ensures QueueBulk(db.(nextId := db.nextId + 1), db.nextId, artifact, ids).Success?
  {
    assert ActiveBulk([]).None? && FindSnapshot([], db.nextId).None?;
  }

  lemma QueuesItem(start: World)
    requires Importable(start)
    ensures var db := start.db;
            var artifact := FILE.(entryCount := |EntriesOf(Pendings(start))|);
            QueueBulk(db.(nextId := db.nextId + 1), db.nextId, artifact, IdList(Pendings(start)))
            == Success((db.(bulks := [Item(start)], nextId := db.nextId + 2), Item(start)))
  {
    var artifact := FILE.(entryCount := |EntriesOf(Pendings(start))|);
    CapturesAll(start.db);
    QueuesAll(start.db, IdList(Pendings(start)), EntriesOf(Pendings(start)), artifact);
    FoundNowhere(start.db.nextId);
    QueueBulkParts(start.db, artifact, Pendings(start));
    assert [] + [Item(start)] == [Item(start)];
  }

  lemma FoundNowhere(snapshot: nat)
    ensures FindSnapshot([], snapshot).None? && ActiveBulk([]).None? && ImportOf([], snapshot).None?
  {
  }

  lemma Chooses(start: World)
    requires Importable(start)
    ensures Step(start.(pc := Delivering), Choose(BulkOnly, None, Pendings(start), FILE))
         == With(start, Item(start), start.server, Resuming(Item(start).id))
  {
    var w := start.(pc := Delivering);
    QueuesItem(start);
    WholePrefix(Pendings(start));
    assert EligibleForBulk(Pendings(start)) && ActiveBulk([]).None?;
    assert Step(w, Choose(BulkOnly, None, Pendings(start), FILE))
        == StepChoose(w, Choose(BulkOnly, None, Pendings(start), FILE));
  }

  lemma CreatesFirst(w: World, item: BulkItem, rows: seq<Entry>)
    requires w.pc == Resuming(item.id) && w.db.bulks == [item] && item.serverImport.None? && w.server.imports == []
    requires AllPending(w.db.outbox, item.captured) && rows == RowsOf(w.db.outbox, item.captured)
    ensures Step(w, CreateRequest(false, None))
         == World(w.db, w.server.(imports := [Import(item.snapshot, rows, AwaitingUpload, false, false)]),
                  Created(item.id, 0, AwaitingUpload))
  {
    OneItem(item, item);
    FoundNowhere(item.snapshot);
    assert Step(w, CreateRequest(false, None)) == StepCreate(w, false, None);
  }

  lemma Creates(start: World)
    requires Importable(start)
    ensures Step(With(start, Item(start), start.server, Resuming(Item(start).id)), CreateRequest(false, None))
         == With(start, Item(start), Awaiting(start), Created(Item(start).id, 0, AwaitingUpload))
  {
    CapturesAll(start.db);
    CapturedIsPending(start.db.outbox, Pendings(start), Item(start).captured);
    CreatesFirst(With(start, Item(start), start.server, Resuming(Item(start).id)), Item(start),
                 EntriesOf(Pendings(start)));
  }

  lemma Binds(start: World)
    ensures var id := Item(start).id;
            Step(With(start, Item(start), Awaiting(start), Created(id, 0, AwaitingUpload)), Commit)
            == With(start, BoundItem(Item(start), 0, AwaitingUpload), Awaiting(start), Refreshing(id))
  {
    OneItem(Item(start), BoundItem(Item(start), 0, AwaitingUpload));
  }

  lemma Refreshes(start: World)
    ensures var id := Item(start).id;
            Step(Step(With(start, BoundItem(Item(start), 0, AwaitingUpload), Awaiting(start), Refreshing(id)),
                      ReadStatus), Commit)
            == With(start, BoundAt(start), Awaiting(start), Uploading(id))
  {
    var item := BoundItem(Item(start), 0, AwaitingUpload);
    var w := With(start, item, Awaiting(start), Refreshing(item.id));
    OneItem(item, BoundAt(start));
    assert Step(w, ReadStatus) == With(start, item, Awaiting(start), Refreshed(item.id, AwaitingUpload));
    RecordParts(Step(w, ReadStatus), 0, item.id, AwaitingUpload, Uploading(item.id));
    assert Step(Step(w, ReadStatus), Commit) == StepCommit(Step(w, ReadStatus));
  }

  // ---------- uploading and merging ----------

  function QueuedItem(start: World): BulkItem {
    Reported(BoundAt(start), ImportStatus.Queued)
  }

  lemma Uploads(start: World)
    ensures var id := Item(start).id;
            Step(Step(With(start, BoundAt(start), Awaiting(start), Uploading(id)), CompleteRequest(false)), Commit)
            == With(start, QueuedItem(start), Serving(start, start.server.occurrences, ImportStatus.Queued, false),
                    Polling(id, ImportStatus.Queued))
  {
    var item := BoundAt(start);
    var queued := Serving(start, start.server.occurrences, ImportStatus.Queued, false);
    var w := With(start, item, Awaiting(start), Uploading(item.id));
    OneItem(item, QueuedItem(start));
    assert CompleteUpload(Awaiting(start), 0) == queued && Bound(w, item.id) == Some(0);
    assert Step(w, CompleteRequest(false)) == With(start, item, queued, Uploaded(item.id, ImportStatus.Queued));
    RecordParts(Step(w, CompleteRequest(false)), 0, item.id, ImportStatus.Queued,
                Polling(item.id, ImportStatus.Queued));
    assert Step(Step(w, CompleteRequest(false)), Commit) == StepCommit(Step(w, CompleteRequest(false)));
  }

  function Merged(start: World): Inventory {
    Merge(start.server.occurrences, EntriesOf(Pendings(start)), {})
  }

  lemma NothingRepeats(rows: seq<Entry>)
    requires DistinctItems(rows)
    ensures !AnyRejected(rows, {})
  {
    forall k | 0 <= k < |rows| ensures !MergeRejects(rows, k, {}) {
      forall e | e in rows[..k] ensures e.item != rows[k].item {
        var i :| 0 <= i < k && rows[i] == e;
      }
    }
  }

  lemma MergesClean(occurrences: Inventory, rows: seq<Entry>)
    requires DistinctItems(rows) && forall e :: e in rows ==> e.operation == Upsert
    ensures !AnyRejected(rows, {}) && InEffect(Merge(occurrences, rows, {}), rows)
  {
    NothingRepeats(rows);
    CleanMergeInEffect(occurrences, rows, {});
  }

  /** A queued import runs, is merged whole, and succeeds. */
  lemma ServesFirst(s: Server, i: Import)
    requires s.imports == [i] && i.status == ImportStatus.Queued && !i.merged && !AnyRejected(i.rows, {})
    ensures StepServer(StepServer(StepServer(s, ServerStart(0)), ServerMerge(0, {})), ServerFinish(0))
         == s.(occurrences := Merge(s.occurrences, i.rows, {}),
               imports := [i.(status := Succeeded, merged := true, rejected := false)])
  {
    var running := StepServer(s, ServerStart(0));
    assert running == s.(imports := [i.(status := Running)]);
    var merged := StepServer(running, ServerMerge(0, {}));
    assert merged == s.(occurrences := Merge(s.occurrences, i.rows, {}),
                        imports := [i.(status := Running, merged := true, rejected := false)]);
  }

  lemma ServerMerges(start: World)
    requires Importable(start)
    ensures var s := Serving(start, start.server.occurrences, ImportStatus.Queued, false);
            StepServer(StepServer(StepServer(s, ServerStart(0)), ServerMerge(0, {})), ServerFinish(0))
            == Serving(start, Merged(start), Succeeded, true)
    ensures InEffect(Merged(start), EntriesOf(Pendings(start)))
  {
    MergesClean(start.server.occurrences, EntriesOf(Pendings(start)));
    ServesFirst(Serving(start, start.server.occurrences, ImportStatus.Queued, false),
                Import(start.db.nextId, EntriesOf(Pendings(start)), ImportStatus.Queued, false, false));
  }

  // ---------- polling and opening the result ----------

  function Done(start: World): Server {
    Serving(start, Merged(start), Succeeded, true)
  }

  function DoneItem(start: World): BulkItem {
    Reported(QueuedItem(start), Succeeded)
  }

  lemma Polls(start: World)
    ensures var id := Item(start).id;
            Step(Step(With(start, QueuedItem(start), Done(start), Polling(id, ImportStatus.Queued)), ReadStatus),
                Commit)
            == With(start, DoneItem(start), Done(start), Polling(id, Succeeded))
  {
    var item := QueuedItem(start);
    var w := With(start, item, Done(start), Polling(item.id, ImportStatus.Queued));
    OneItem(item, DoneItem(start));
    assert Bound(w, item.id) == Some(0);
    assert Step(w, ReadStatus) == With(start, item, Done(start), Polled(item.id, Succeeded));
    RecordParts(Step(w, ReadStatus), 0, item.id, Succeeded, Polling(item.id, Succeeded));
    assert Step(Step(w, ReadStatus), Commit) == StepCommit(Step(w, ReadStatus));
  }

  lemma OpensSaved(w: World, item: BulkItem)
    requires w.pc == OpeningResult(item.id) && w.db.bulks == [item] && !item.resultSaved
    requires item.serverImport.Some? && item.serverStatus == Some(Succeeded)
    requires AllPending(w.db.outbox, item.captured)
    requires |RowsOf(w.db.outbox, item.captured)| == item.artifact.entryCount
    ensures Step(w, OpenResult(true))
         == World(w.db.(bulks := [SavedItem(item)]), w.server, ApplyingPages(item.id))
  {
    OneItem(item, SavedItem(item));
    OpenParts(w, 0, true);
    assert Step(w, OpenResult(true)) == StepOpenResult(w, true);
  }

  lemma Decides(start: World)
    ensures var id := Item(start).id;
            Step(With(start, DoneItem(start), Done(start), Polling(id, Succeeded)), Decide(false))
            == With(start, DoneItem(start), Done(start), OpeningResult(id))
  {
  }

  lemma CapturedRows(start: World)
    requires Importable(start)
    ensures var item := DoneItem(start);
            && item.captured == IdList(Pendings(start)) && item.captured == Item(start).captured
            && AllPending(start.db.outbox, item.captured)
            && RowsOf(start.db.outbox, item.captured) == EntriesOf(Pendings(start))
            && item.artifact.entryCount == |EntriesOf(Pendings(start))|
  {
    CapturesAll(start.db);
    CapturedIsPending(start.db.outbox, Pendings(start), Item(start).captured);
  }

  lemma Opens(start: World)
    requires Importable(start)
    ensures var id := Item(start).id;
            Step(With(start, DoneItem(start), Done(start), OpeningResult(id)), OpenResult(true))
            == With(start, SavedItem(DoneItem(start)), Done(start), ApplyingPages(id))
  {
    CapturedRows(start);
    OpensSaved(With(start, DoneItem(start), Done(start), OpeningResult(Item(start).id)), DoneItem(start));
  }

  // ---------- the run up to the pages ----------

  lemma UpToBinding(start: World) returns (events: seq<Event>)
    requires Importable(start)
    ensures Run(start, events)
         == With(start, BoundItem(Item(start), 0, AwaitingUpload), Awaiting(start), Refreshing(Item(start).id))
  {
    var choose := Choose(BulkOnly, None, Pendings(start), FILE);
    Starts(start);
    Chooses(start);
    Creates(start);
    Binds(start);
    RunOne(start, Start);
    RunOneMore(start, [Start], choose);
    RunOneMore(start, [Start] + [choose], CreateRequest(false, None));
    RunOneMore(start, [Start] + [choose] + [CreateRequest(false, None)], Commit);
    events := [Start] + [choose] + [CreateRequest(false, None)] + [Commit];
  }

  lemma RunTwoMore(start: World, events: seq<Event>, a: Event, b: Event) returns (longer: seq<Event>)
    ensures Run(start, longer) == Step(Step(Run(start, events), a), b)
  {
    RunOneMore(start, events, a);
    RunOneMore(start, events + [a], b);
    longer := events + [a] + [b];
  }

  lemma UpToQueued(start: World) returns (events: seq<Event>)
    requires Importable(start)
    ensures Run(start, events)
         == With(start, QueuedItem(start), Serving(start, start.server.occurrences, ImportStatus.Queued, false),
                 Polling(Item(start).id, ImportStatus.Queued))
  {
    events := UpToBinding(start);
    Refreshes(start);
    events := RunTwoMore(start, events, ReadStatus, Commit);
    Uploads(start);
    events := RunTwoMore(start, events, CompleteRequest(false), Commit);
  }

  lemma ServerSteps(w: World)
    ensures Step(Step(Step(w, ServerStart(0)), ServerMerge(0, {})), ServerFinish(0))
         == w.(server :=
              StepServer(StepServer(StepServer(w.server, ServerStart(0)), ServerMerge(0, {})), ServerFinish(0)))
  {
    assert Step(w, ServerStart(0)) == w.(server := StepServer(w.server, ServerStart(0)));
  }

  lemma UpToMerged(start: World) returns (events: seq<Event>)
    requires Importable(start)
    ensures Run(start, events)
         == With(start, QueuedItem(start), Done(start), Polling(Item(start).id, ImportStatus.Queued))
  {
    events := UpToQueued(start);
    ServerMerges(start);
    ServerSteps(Run(start, events));
    events := RunTwoMore(start, events, ServerStart(0), ServerMerge(0, {}));
    RunOneMore(start, events, ServerFinish(0));
    events := events + [ServerFinish(0)];
  }

  lemma UpToPages(start: World) returns (events: seq<Event>)
    requires Importable(start)
    ensures Run(start, events) == With(start, SavedItem(DoneItem(start)), Done(start), ApplyingPages(Item(start).id))
  {
    events := UpToMerged(start);
    Polls(start);
    events := RunTwoMore(start, events, ReadStatus, Commit);
    Decides(start);
    Opens(start);
    events := RunTwoMore(start, events, Decide(false), OpenResult(true));
  }

  // ---------- the pages ----------

  /** A result that accepts every row. */
  function AllCreated(rows: seq<Entry>): seq<EntryResult> {
    seq(|rows|, k requires 0 <= k < |rows| => EntryResult(rows[k].item, CreatedOccurrence, false, 0, 0, 0))
  }

  ghost predicate Whole(rows: seq<Entry>) {
    forall e :: e in rows ==> e.operation == Upsert && e.item != "" && e.revision != "" && e.fileName != ""
  }

  /** The result of the item at hand is open, and can be applied whole. */
  ghost predicate Applies(w: World, h: int, rows: seq<Entry>) {
    && ClientAt(w, h) && w.pc.ApplyingPages? && h >= 0
    && w.db.bulks[h].state in {ResultReady, ApplyingResult}
    && rows == RowsOf(w.db.outbox, w.db.bulks[h].captured) && Whole(rows)
  }

  lemma CreatedPageFits(rows: seq<Entry>, cursor: nat, size: nat)
    requires Whole(rows) && cursor + size <= |rows|
    ensures FirstError(NextPage(rows, AllCreated(rows), cursor, size), cursor, |rows|) == None
  {
    var page := NextPage(rows, AllCreated(rows), cursor, size);
    forall k | 0 <= k < |page| ensures OutboxLaws.RowFits(page[k], cursor + 1 + k, |rows|) {
      assert rows[cursor + k] in rows;
    }
    OutboxLaws.RowsFit(page, cursor, |rows|);
  }

  lemma AppliedStep(w: World, h: nat, rows: seq<Entry>, size: nat, results: seq<EntryResult>)
    requires w.pc.ApplyingPages? && FindBulk(w.db.bulks, w.pc.bulk) == Some(h)
    requires rows == RowsOf(w.db.outbox, w.db.bulks[h].captured) && Truthful(rows, results)
    requires 1 <= size <= BULK_RESULT_APPLY_PAGE_SIZE && w.db.bulks[h].appliedThrough + size <= |rows|
    requires ApplyRows(w.db, w.pc.bulk, NextPage(rows, results, w.db.bulks[h].appliedThrough, size)).Success?
    ensures Step(w, ApplyPage(size, results))
         == w.(db := ApplyRows(w.db, w.pc.bulk, NextPage(rows, results, w.db.bulks[h].appliedThrough, size)).value.0)
  {
    assert Step(w, ApplyPage(size, results)) == StepApplyPage(w, size, results);
  }

  lemma CreatedPageSucceeds(db: Db, id: nat, h: nat, rows: seq<Entry>, size: nat)
    requires FindBulk(db.bulks, id) == Some(h) && db.bulks[h].state in {ResultReady, ApplyingResult} && Whole(rows)
    requires 1 <= size && db.bulks[h].appliedThrough + size <= |rows| == db.bulks[h].artifact.entryCount
    ensures var cursor := db.bulks[h].appliedThrough;
            var r := ApplyRows(db, id, NextPage(rows, AllCreated(rows), cursor, size));
            && r.Success? && r.value.0.outbox == db.outbox
            && r.value.0.bulks
               == db.bulks[h := db.bulks[h].(appliedThrough := cursor + size, state := ApplyingResult)]
  {
    var page := NextPage(rows, AllCreated(rows), db.bulks[h].appliedThrough, size);
    CreatedPageFits(rows, db.bulks[h].appliedThrough, size);
    BulkRefinement.CleanPageApplies(db, id, h, page);
    BulkRefinement.AcceptedPageParts(db, id, h, page);
  }

  lemma CreatedPageApplies(w: World, h: int, rows: seq<Entry>, size: nat)
    requires Applies(w, h, rows) && 1 <= size <= BULK_RESULT_APPLY_PAGE_SIZE
    requires w.db.bulks[h].appliedThrough + size <= |rows|
    ensures var after := Step(w, ApplyPage(size, AllCreated(rows)));
            && after.pc == w.pc && after.server == w.server && after.db.outbox == w.db.outbox
            && after.db.bulks
               == w.db.bulks[h := w.db.bulks[h].(appliedThrough := w.db.bulks[h].appliedThrough + size,
                                                 state := ApplyingResult)]
  {
    HeldItem(w, h, w.pc.bulk);
    CreatedPageSucceeds(w.db, w.pc.bulk, h, rows, size);
    AppliedStep(w, h, rows, size, AllCreated(rows));
  }

  lemma PageGoesOn(w: World, h: int, rows: seq<Entry>, size: nat)
    requires Applies(w, h, rows) && 1 <= size <= BULK_RESULT_APPLY_PAGE_SIZE
    requires w.db.bulks[h].appliedThrough + size <= |rows|
    ensures Applies(Step(w, ApplyPage(size, AllCreated(rows))), h, rows)
  {
    var e := ApplyPage(size, AllCreated(rows));
    CreatedPageApplies(w, h, rows, size);
    var h' := StepKeeps(w, h, e);
    HeldItem(Step(w, e), h', w.pc.bulk);
    HeldItem(w, h, w.pc.bulk);
    assert Step(w, e).db.bulks[h].id == w.pc.bulk;
  }

  /** Pages of the usual size take the cursor to the last row. */
  lemma {:induction false} PagesToEnd(w: World, h: int, rows: seq<Entry>) returns (events: seq<Event>)
    requires Applies(w, h, rows) && w.db.bulks[h].appliedThrough <= |rows|
    ensures var after := Run(w, events);
            && Applies(after, h, rows) && after.db.outbox == w.db.outbox && after.server == w.server
            && |after.db.bulks| == |w.db.bulks| && after.db.bulks[h].appliedThrough == |rows|
            && after.db.bulks[h].captured == w.db.bulks[h].captured
            && after.db.bulks[h].id == w.db.bulks[h].id && after.pc == w.pc
    decreases |rows| - w.db.bulks[h].appliedThrough
  {
    var left := |rows| - w.db.bulks[h].appliedThrough;
    if left == 0 {
      events := [];
    } else {
      var size := if left <= BULK_RESULT_APPLY_PAGE_SIZE then left else BULK_RESULT_APPLY_PAGE_SIZE;
      var e := ApplyPage(size, AllCreated(rows));
      CreatedPageApplies(w, h, rows, size);
      PageGoesOn(w, h, rows, size);
      var rest := PagesToEnd(Step(w, e), h, rows);
      RunOne(w, e);
      RunOn(w, [e], rest);
      events := [e] + rest;
    }
  }

  // ---------- the end ----------

  lemma NothingLeft(outbox: seq<Batch>, nextId: nat)
    requires UniqueRows(outbox, nextId)
    ensures PendingOf(DiscardPending(outbox, SetOf(IdList(PendingOf(outbox))))) == []
  {
    var after := DiscardPending(outbox, SetOf(IdList(PendingOf(outbox))));
    PendingMembers(after);
    PendingMembers(outbox);
    forall b | b in after ensures b.state != Pending {
      var i :| 0 <= i < |after| && after[i] == b;
      if outbox[i].state == Pending {
        var k :| 0 <= k < |PendingOf(outbox)| && PendingOf(outbox)[k] == outbox[i];
        assert IdList(PendingOf(outbox))[k] == outbox[i].id;
      }
    }
    if PendingOf(after) != [] { assert PendingOf(after)[0] in PendingOf(after); }
  }

  /** The result of the one item is open at its first row. */
  lemma OpensAtStart(start: World, events: seq<Event>)
    requires Importable(start)
    requires Run(start, events) == With(start, SavedItem(DoneItem(start)), Done(start), ApplyingPages(Item(start).id))
    requires forall e :: e in EntriesOf(Pendings(start)) ==> e.item != ""
    ensures Applies(Run(start, events), 0, EntriesOf(Pendings(start)))
  {
    var h := ClientRunKeeps(start, events);
    CapturedRows(start);
  }

  lemma ItemsAreNamed(start: World)
    requires Fresh(start)
    ensures forall e :: e in EntriesOf(Pendings(start)) ==> e.item != ""
  {
  }

  /** All rows of the one item are applied. */
  ghost predicate AllApplied(start: World, w: World) {
    && w.pc == ApplyingPages(Item(start).id) && |w.db.bulks| == 1 && w.db.bulks[0].id == Item(start).id
    && w.db.bulks[0].captured == IdList(Pendings(start)) && w.db.outbox == start.db.outbox
    && w.server == Done(start) && w.db.bulks[0].appliedThrough == |EntriesOf(Pendings(start))|
    && RowsOf(w.db.outbox, w.db.bulks[0].captured) == EntriesOf(Pendings(start))
  }

  lemma UpToEnd(start: World) returns (events: seq<Event>)
    requires Importable(start)
    ensures AllApplied(start, Run(start, events))
  {
    events := UpToPages(start);
    ItemsAreNamed(start);
    OpensAtStart(start, events);
    CapturedRows(start);
    var pages := PagesToEnd(Run(start, events), 0, EntriesOf(Pendings(start)));
    RunOn(start, events, pages);
    events := events + pages;
  }

  lemma FinishKeepsItems(w: World, h: int)
    requires ClientAt(w, h) && w.pc.ApplyingPages? && |w.db.bulks| == 1
    ensures |Step(w, FinishResult).db.bulks| == 1 && Step(w, FinishResult).server == w.server
    ensures Step(w, FinishResult).db.bulks[0].captured == w.db.bulks[0].captured
  {
    assert Step(w, FinishResult) == StepFinish(w);
    HeldItem(w, h, w.pc.bulk);
    FallBackParts(w, h, w.pc.bulk, FailedPermanent);
    if CompleteBulk(w.db, w.pc.bulk).Success? { CompletedParts(w, h); }
  }

  /** From every start with hashed upserts waiting, in batches of any number and size,
      there is a run in which one import captures them all, is created, uploaded, polled
      to its success and applied page by page: it ends applied, its batches are
      discarded, nothing is left to deliver, and client and server both hold every
      entry. */
  lemma ImportCompletes(start: World) returns (events: seq<Event>)
    requires Importable(start)
    ensures var w, pending := Run(start, events), PendingOf(start.db.outbox);
            && w.pc == Scanning && PendingOf(w.db.outbox) == []
            && |w.db.bulks| == 1 && w.db.bulks[0].state == Applied && w.db.bulks[0].captured == IdList(pending)
            && AllDiscarded(w.db.outbox, IdList(pending))
            && InEffect(w.db.known, EntriesOf(pending)) && InEffect(w.server.occurrences, EntriesOf(pending))
  {
    events := UpToEnd(start);
    var h := ClientRunKeeps(start, events);
    FullyAppliedCompletes(start, events, 0);
    FinishKeepsItems(Run(start, events), h);
    ServerMerges(start);
    NothingLeft(start.db.outbox, start.db.nextId);
    RunOneMore(start, events, FinishResult);
    events := events + [FinishResult];
  }
}
