/** The client's part of the invariant: every event keeps it, whatever the server does
    and whatever its answers are. */
module SyncClient {
  import opened Options
  import opened Manifest
  import opened Outbox
  import opened Planning
  import opened SyncProtocol
  import opened SyncInvariant
  import opened SyncSteps
  import opened SyncTables
  import BulkRefinement
  import Splitting

  // ---------- delivering accepted entries ----------

  lemma {:induction false} DeliverEffects(source: nat, s: Store, ds: seq<Delivery>, item: string)
    requires forall d :: d in ds ==> d.0.operation != OtherOperation
    ensures var after := DeliverAll(source, s, ds).known;
            || (Lookup(after, item) == Lookup(s.known, item) && forall d :: d in ds ==> d.0.item != item)
            || (exists d :: d in ds && d.0.item == item && Lookup(after, item) == Effect(d.0))
  {
    if ds != [] {
      var front, last := ds[..|ds| - 1], ds[|ds| - 1];
      assert ds == front + [last];
      forall d | d in front ensures d.0.operation != OtherOperation { assert d in ds; }
      DeliverEffects(source, s, front, item);
      var before, after := DeliverAll(source, s, front).known, DeliverAll(source, s, ds).known;
      assert last in ds;
      if last.0.item == item {
        assert Lookup(after, item) == Effect(last.0);
      } else {
        assert Lookup(after, item) == Lookup(before, item);
        if d :| d in front && d.0.item == item && Lookup(before, item) == Effect(d.0) {
          assert d in ds;
        }
      }
    }
  }

  // ---------- the item at hand ----------

  lemma HeldItem(w: World, h: int, bulk: nat)
    requires TablesOk(w.db) && Holds(w, h, bulk)
    ensures FindBulk(w.db.bulks, bulk) == Some(h)
  {
    FindHeld(w.db.bulks, h);
  }

  lemma ActiveIsHot(db: Db, h: int)
    requires HotClient(db, h) && ActiveBulk(db.bulks).Some?
    ensures h >= 0 && ActiveBulk(db.bulks).value == db.bulks[h]
  {
    var i :| 0 <= i < |db.bulks| && db.bulks[i] == ActiveBulk(db.bulks).value;
  }

  /** The hot item captures pending batches, so with nothing pending none is hot. */
  lemma HotHasPending(db: Db, h: int)
    requires TablesOk(db) && HotClient(db, h)
    ensures h >= 0 ==> PendingOf(db.outbox) != []
  {
    if h >= 0 {
      PendingMembers(db.outbox);
      assert ItemOk(db, db.bulks[h]);
      assert db.bulks[h].captured[0] in db.bulks[h].captured;
    }
  }

  lemma NothingPendingNothingHot(db: Db, h: int)
    requires TablesOk(db) && HotClient(db, h) && PendingOf(db.outbox) == []
    ensures h == -1
  {
    HotHasPending(db, h);
  }

  /** The item stays the same one, with its cursor. */
  ghost predicate SameHeld(before: BulkItem, after: BulkItem) {
    && after.id == before.id && after.snapshot == before.snapshot && after.captured == before.captured
    && after.appliedThrough == before.appliedThrough && after.artifact == before.artifact
  }

  lemma UpdatedClient(db: Db, h: nat, item: BulkItem)
    requires TablesOk(db) && HotClient(db, h) && h < |db.bulks| && SameHeld(db.bulks[h], item)
    ensures var after := db.(bulks := db.bulks[h := item]);
            TablesOk(after) && HotClient(after, h) && (Terminal(item.state) ==> HotClient(after, -1))
  {
    ItemUpdateKeepsTables(db, h, item);
    assert RowsKnown(db, db.bulks[h]);
  }

  // ---------- falling back ----------

  function GivenUp(item: BulkItem, state: ImportStatus): BulkItem {
    item.(state := At(state), serverStatus := if item.serverStatus.Some? then item.serverStatus else Some(state))
  }

  lemma FallBackParts(w: World, h: nat, bulk: nat, state: ImportStatus)
    requires FindBulk(w.db.bulks, bulk) == Some(h) && state in {FailedPermanent, Cancelled, Expired}
    ensures FallBack(w, bulk, state)
         == World(w.db.(bulks := w.db.bulks[h := GivenUp(w.db.bulks[h], state)]), w.server, Flushing)
  {
  }

  lemma FallBackClient(w: World, h: int, bulk: nat, state: ImportStatus)
    requires TablesOk(w.db) && HotClient(w.db, h) && Holds(w, h, bulk) && state in {FailedPermanent, Cancelled, Expired}
    ensures ClientAt(FallBack(w, bulk, state), -1)
  {
    HeldItem(w, h, bulk);
    FallBackParts(w, h, bulk, state);
    UpdatedClient(w.db, h, GivenUp(w.db.bulks[h], state));
  }

  // ---------- updating the item ----------

  function Reported(item: BulkItem, status: ImportStatus): BulkItem {
    item.(state := At(status), serverStatus := Some(status))
  }

  lemma RecordParts(w: World, h: nat, bulk: nat, status: ImportStatus, next: Pc)
    requires FindBulk(w.db.bulks, bulk) == Some(h)
    ensures Record(w, bulk, status, next)
         == World(w.db.(bulks := w.db.bulks[h := Reported(w.db.bulks[h], status)]), w.server, next)
  {
  }

  lemma RecordClient(w: World, h: int, bulk: nat, status: ImportStatus, next: Pc)
    requires TablesOk(w.db) && HotClient(w.db, h) && Holds(w, h, bulk)
    requires next in {EscapeDeciding(bulk, status), Polling(bulk, status), Uploading(bulk)}
    ensures ClientAt(Record(w, bulk, status, next), h)
  {
    HeldItem(w, h, bulk);
    RecordParts(w, h, bulk, status, next);
    UpdatedClient(w.db, h, Reported(w.db.bulks[h], status));
  }

  function BoundItem(item: BulkItem, serverImport: nat, status: ImportStatus): BulkItem {
    item.(serverImport := Some(serverImport), serverStatus := Some(status), state := At(status))
  }

  lemma BindParts(w: World, h: nat)
    requires w.pc.Created? && FindBulk(w.db.bulks, w.pc.bulk) == Some(h)
    ensures var item := w.db.bulks[h];
            StepCommit(w)
            == if item.serverImport.Some? && item.serverImport.value != w.pc.serverImport
               then FallBack(w, w.pc.bulk, FailedPermanent)
               else World(w.db.(bulks := w.db.bulks[h := BoundItem(item, w.pc.serverImport, w.pc.status)]), w.server,
                          Refreshing(w.pc.bulk))
  {
  }

  lemma BindClient(w: World, h: int) returns (h': int)
    requires ClientAt(w, h) && w.pc.Created?
    ensures ClientAt(StepCommit(w), h')
    ensures h' == if StepCommit(w).pc == Flushing then -1 else h
  {
    HeldItem(w, h, w.pc.bulk);
    BindParts(w, h);
    var item := w.db.bulks[h];
    if item.serverImport.Some? && item.serverImport.value != w.pc.serverImport {
      FallBackClient(w, h, w.pc.bulk, FailedPermanent);
      FallBackParts(w, h, w.pc.bulk, FailedPermanent);
      h' := -1;
    } else {
      UpdatedClient(w.db, h, BoundItem(item, w.pc.serverImport, w.pc.status));
      h' := h;
    }
  }

  function SavedItem(item: BulkItem): BulkItem {
    item.(state := ResultReady, resultSaved := true)
  }

  // ---------- pages of a verified result ----------

  lemma {:induction false} PageDeliveries(page: seq<Row>, n: nat)
    requires n <= |page| && forall k :: 0 <= k < |page| ==> page[k].result.outcome != Rejected
    ensures |Deliveries(page[..n])| == n
    ensures forall k :: 0 <= k < n ==> Deliveries(page[..n])[k] == (page[k].entry, page[k].result)
  {
    if n > 0 {
      PageDeliveries(page, n - 1);
      assert page[..n][..n - 1] == page[..n - 1];
    }
  }

  /** The deliveries are for the rows from the cursor on. */
  ghost predicate FromRows(ds: seq<Delivery>, rows: seq<Entry>, cursor: nat) {
    cursor + |ds| <= |rows| && forall k :: 0 <= k < |ds| ==> ds[k].0 == rows[cursor + k]
  }

  ghost predicate DeliversRows(page: seq<Row>, rows: seq<Entry>, cursor: nat) {
    |Deliveries(page)| == |page| && FromRows(Deliveries(page), rows, cursor)
  }

  lemma NextPageDeliveries(rows: seq<Entry>, results: seq<EntryResult>, cursor: nat, size: nat)
    requires Truthful(rows, results) && cursor + size <= |rows|
    ensures DeliversRows(NextPage(rows, results, cursor, size), rows, cursor)
  {
    var page := NextPage(rows, results, cursor, size);
    PageDeliveries(page, size);
    assert page[..size] == page;
  }

  lemma DeliveredRows(ds: seq<Delivery>, rows: seq<Entry>, cursor: nat)
    requires FromRows(ds, rows, cursor)
    ensures forall d :: d in ds ==> d.0 in rows
  {
    forall d | d in ds ensures d.0 in rows {
      var j :| 0 <= j < |ds| && ds[j] == d;
    }
  }

  /** Delivering further rows keeps what earlier rows put in effect, because rows
      for one item are the same row. */
  lemma DeliveredPrefix(source: nat, s: Store, rows: seq<Entry>, ds: seq<Delivery>, cursor: nat, k: nat)
    requires forall a, b :: a in rows && b in rows && a.item == b.item ==> a == b
    requires forall e :: e in rows ==> e.operation == Upsert
    requires FromRows(ds, rows, cursor)
    requires k < cursor + |ds| && (k < cursor ==> Lookup(s.known, rows[k].item) == Effect(rows[k]))
    ensures Lookup(DeliverAll(source, s, ds).known, rows[k].item) == Effect(rows[k])
  {
    DeliveredRows(ds, rows, cursor);
    DeliverEffects(source, s, ds, rows[k].item);
    assert rows[k] in rows;
    if k >= cursor {
      assert ds[k - cursor] in ds;
    }
  }

  lemma RowsAreFunctional(db: Db, h: int)
    requires TablesOk(db) && HotClient(db, h) && h >= 0
    ensures var rows := RowsOf(db.outbox, db.bulks[h].captured);
            && (forall e :: e in rows ==> e in Waiting(db.outbox) && e.operation == Upsert)
            && (forall a, b :: a in rows && b in rows && a.item == b.item ==> a == b)
  {
    assert ItemOk(db, db.bulks[h]);
    CapturedWait(db.outbox, db.nextId, db.bulks[h].captured);
  }

  /** The rows up to the new cursor are in effect in the client's record. */
  lemma PageReaches(db: Db, h: int, ds: seq<Delivery>, k: nat)
    requires TablesOk(db) && HotClient(db, h) && h >= 0
    requires FromRows(ds, RowsOf(db.outbox, db.bulks[h].captured), db.bulks[h].appliedThrough)
    requires k < db.bulks[h].appliedThrough + |ds|
    ensures var row := RowsOf(db.outbox, db.bulks[h].captured)[k];
            Lookup(DeliverAll(db.source, StoreOf(db), ds).known, row.item) == Effect(row)
  {
    RowsAreFunctional(db, h);
    assert RowsKnown(db, db.bulks[h]);
    DeliveredPrefix(db.source, StoreOf(db), RowsOf(db.outbox, db.bulks[h].captured), ds, db.bulks[h].appliedThrough, k);
  }

  lemma SameItems(a: Db, b: Db)
    requires ItemsOk(a) && a.bulks == b.bulks && a.outbox == b.outbox && a.nextId == b.nextId
    ensures ItemsOk(b)
  {
    forall i | 0 <= i < |b.bulks| ensures ItemOk(b, b.bulks[i]) {
      assert ItemOk(a, a.bulks[i]);
    }
  }

  /** Moving the cursor of the hot item with the matching known occurrences. */
  lemma CursorClient(db: Db, h: int, updated: BulkItem, after: Db)
    requires TablesOk(db) && HotClient(db, h) && h >= 0
    requires updated == db.bulks[h].(appliedThrough := updated.appliedThrough, state := ApplyingResult)
    requires after.bulks == db.bulks[h := updated] && after.outbox == db.outbox && after.nextId == db.nextId
    requires RowsKnown(after, updated)
    ensures TablesOk(after) && HotClient(after, h)
  {
    var moved := db.(bulks := db.bulks[h := updated]);
    ItemUpdateKeepsTables(db, h, updated);
    SameItems(moved, after);
  }

  lemma PageRowsKnown(db: Db, h: int, ds: seq<Delivery>, after: Db, item: BulkItem)
    requires TablesOk(db) && HotClient(db, h) && h >= 0
    requires FromRows(ds, RowsOf(db.outbox, db.bulks[h].captured), db.bulks[h].appliedThrough)
    requires after.known == DeliverAll(db.source, StoreOf(db), ds).known && after.outbox == db.outbox
    requires item.captured == db.bulks[h].captured && item.appliedThrough == db.bulks[h].appliedThrough + |ds|
    ensures RowsKnown(after, item)
  {
    var rows := RowsOf(db.outbox, db.bulks[h].captured);
    forall k | 0 <= k < item.appliedThrough && k < |rows| ensures Lookup(after.known, rows[k].item) == Effect(rows[k]) {
      PageReaches(db, h, ds, k);
    }
  }

  lemma PageClient(w: World, h: int, page: seq<Row>)
    requires ClientAt(w, h) && w.pc.ApplyingPages? && FindBulk(w.db.bulks, w.pc.bulk) == Some(h)
    requires DeliversRows(page, RowsOf(w.db.outbox, w.db.bulks[h].captured), w.db.bulks[h].appliedThrough)
    requires ApplyRows(w.db, w.pc.bulk, page).Success?
    ensures ClientAt(w.(db := ApplyRows(w.db, w.pc.bulk, page).value.0), h)
  {
    BulkRefinement.AcceptedPageParts(w.db, w.pc.bulk, h, page);
    AppliedClient(w, h, page, ApplyRows(w.db, w.pc.bulk, page).value.0);
  }

  lemma AppliedClient(w: World, h: int, page: seq<Row>, after: Db)
    requires ClientAt(w, h) && w.pc.ApplyingPages? && h >= 0
    requires DeliversRows(page, RowsOf(w.db.outbox, w.db.bulks[h].captured), w.db.bulks[h].appliedThrough)
    requires after.known == DeliverAll(w.db.source, StoreOf(w.db), Deliveries(page)).known
    requires after.bulks == w.db.bulks[h := BulkRefinement.MovedBy(w.db.bulks[h], page)]
    requires after.outbox == w.db.outbox && after.nextId == w.db.nextId
    ensures ClientAt(w.(db := after), h)
  {
    var updated := BulkRefinement.MovedBy(w.db.bulks[h], page);
    PageRowsKnown(w.db, h, Deliveries(page), after, updated);
    CursorClient(w.db, h, updated, after);
  }

  // ---------- finishing ----------

  lemma AllRowsKnown(db: Db, h: int)
    requires HotClient(db, h) && h >= 0
    requires |RowsOf(db.outbox, db.bulks[h].captured)| <= db.bulks[h].appliedThrough
    ensures InEffect(db.known, RowsOf(db.outbox, db.bulks[h].captured))
  {
    var rows := RowsOf(db.outbox, db.bulks[h].captured);
    assert RowsKnown(db, db.bulks[h]);
    forall e | e in rows ensures Lookup(db.known, e.item) == Effect(e) {
      var k :| 0 <= k < |rows| && rows[k] == e;
    }
  }

  /** Discarding rows only takes entries out of what waits. */
  lemma DiscardedWait(outbox: seq<Batch>, ids: set<nat>)
    ensures var after := DiscardPending(outbox, ids);
            && Waiting(after) <= Waiting(outbox)
            && forall b :: b in after && b.state == Pending ==> b in outbox
  {
    var after := DiscardPending(outbox, ids);
    forall b | b in after && b.state == Pending ensures b in outbox {
      var i :| 0 <= i < |after| && after[i] == b;
    }
  }

  lemma DiscardedTables(db: Db, ids: set<nat>)
    requires TablesOk(db)
    ensures TablesOk(db.(outbox := DiscardPending(db.outbox, ids), nextId := db.nextId))
  {
    var outbox := DiscardPending(db.outbox, ids);
    DiscardedWait(db.outbox, ids);
    SameRowsKeepUnique(db.outbox, outbox, db.nextId);
    FewerWaitingKeepsFunctional(db.outbox, outbox);
    ExtensionKeepsItems(db, outbox, db.nextId);
  }

  lemma CompletedParts(w: World, h: nat)
    requires w.pc.ApplyingPages? && FindBulk(w.db.bulks, w.pc.bulk) == Some(h) && CompleteBulk(w.db, w.pc.bulk).Success?
    ensures CompleteBulk(w.db, w.pc.bulk).value
         == w.db.(outbox := DiscardPending(w.db.outbox, SetOf(w.db.bulks[h].captured)),
                  bulks := w.db.bulks[h := w.db.bulks[h].(state := Applied)])
    ensures w.db.bulks[h].appliedThrough == w.db.bulks[h].artifact.entryCount
  {
  }

  lemma CompletedClient(w: World, h: int)
    requires ClientAt(w, h) && w.pc.ApplyingPages? && FindBulk(w.db.bulks, w.pc.bulk) == Some(h)
    requires CompleteBulk(w.db, w.pc.bulk).Success?
    ensures ClientAt(StepFinish(w), -1)
  {
    var ids, applied := SetOf(w.db.bulks[h].captured), w.db.bulks[h].(state := Applied);
    var discarded := w.db.(outbox := DiscardPending(w.db.outbox, ids), nextId := w.db.nextId);
    CompletedParts(w, h);
    DiscardedTables(w.db, ids);
    ItemUpdateKeepsTables(discarded, h, applied);
    assert CompleteBulk(w.db, w.pc.bulk).value == discarded.(bulks := discarded.bulks[h := applied]);
  }

  // ---------- resolving a batch ----------

  lemma ResolvedClient(db: Db, b: Batch, state: BatchState, failures: seq<Entry>, after: Db)
    requires TablesOk(db) && HotClient(db, -1) && Resolves(db.outbox, after.outbox, b, state, failures)
    requires after.bulks == db.bulks && after.nextId == db.nextId
    ensures TablesOk(after) && HotClient(after, -1)
  {
    ResolvedTables(db.outbox, after.outbox, b, state, failures);
    SameRowsKeepUnique(db.outbox, after.outbox, db.nextId);
    FewerWaitingKeepsFunctional(db.outbox, after.outbox);
    ExtensionKeepsItems(db, after.outbox, db.nextId);
    SameItems(db.(outbox := after.outbox, nextId := db.nextId), after);
  }

  /** The entries an answer refuses: all of them when the request is rejected. */
  function RefusedBy(b: Batch, response: Option<Response>): seq<Entry> {
    if response.Some? then Refused(b.entries, b.reliable, response.value.results) else b.entries
  }

  function Stored(db: Db, b: Batch, response: Option<Response>): Db {
    if response.Some? then Acknowledge(db, b, response.value) else RejectRequest(db, b)
  }

  function StoredState(b: Batch, response: Option<Response>): BatchState {
    if response.Some? && Clean(b, response.value) then Sent else Failed
  }

  /** Storing an answer resolves its batch, and leaves the items alone. */
  lemma StoredParts(w: World, b: Batch, response: Option<Response>)
    requires ClientAt(w, -1) && w.pc == Answered(b, response)
    ensures StepCommit(w) == World(Stored(w.db, b, response), w.server, Sending)
    ensures Resolves(w.db.outbox, Stored(w.db, b, response).outbox, b, StoredState(b, response), RefusedBy(b, response))
    ensures Stored(w.db, b, response).bulks == w.db.bulks && Stored(w.db, b, response).nextId == w.db.nextId
  {
    UniqueById(w.db.outbox, w.db.nextId, b);
  }

  lemma StoredClient(w: World, h: int)
    requires ClientAt(w, h) && w.pc.Answered?
    ensures h == -1 && ClientAt(StepCommit(w), -1)
  {
    var b, response := w.pc.batch, w.pc.response;
    StoredParts(w, b, response);
    ResolvedClient(w.db, b, StoredState(b, response), RefusedBy(b, response), Stored(w.db, b, response));
  }

  // ---------- queueing and splitting ----------

  lemma SplitClient(w: World)
    requires ClientAt(w, -1)
    ensures ClientAt(World(Split(w.db, MANIFEST_BATCH_SIZE), w.server, Sending), -1)
  {
    var size := MANIFEST_BATCH_SIZE;
    var after := Split(w.db, size);
    Splitting.SplitKeepsUnique(w.db, size);
    Splitting.SplitConservesPending(w.db, size);
    SplitExtends(w.db, size);
    SplitKeepsWaiting(w.db, size);
    ExtensionKeepsItems(w.db, after.outbox, after.nextId);
    assert after == w.db.(outbox := after.outbox, nextId := after.nextId);
  }

  lemma DistinctIsFunctional(entries: seq<Entry>)
    requires DistinctItems(entries)
    ensures forall a, b :: a in entries && b in entries && a.item == b.item ==> a == b
  {
  }

  /** Queueing happens when nothing waits, so a plan's entries are the only ones. */
  lemma QueuedWaiting(db: Db, scan: Scan, changed: seq<Entry>, deleted: seq<Entry>)
    requires PendingOf(db.outbox) == [] && Proper(scan)
    requires IsPlan(scan, db.known, QuarantineOf(db.outbox), changed, deleted)
    ensures var payloads := ChunkPayloads(scan.completeRead, changed + deleted, MANIFEST_BATCH_SIZE);
            Functional(QueueBatches(db, payloads).outbox)
  {
    var entries := changed + deleted;
    var payloads := ChunkPayloads(scan.completeRead, entries, MANIFEST_BATCH_SIZE);
    var after := QueueBatches(db, payloads);
    QueuedRows(db, payloads);
    Splitting.RowsOfPayloads(db.nextId, db.nextId + 1, scan.completeRead, entries, MANIFEST_BATCH_SIZE);
    WaitingIsPending(after.outbox);
    PlanIsDistinct(scan, db.known, QuarantineOf(db.outbox), changed, deleted);
    DistinctIsFunctional(entries);
  }

  lemma QueuedTables(db: Db, payloads: seq<Payload>)
    requires TablesOk(db) && Functional(QueueBatches(db, payloads).outbox)
    ensures TablesOk(QueueBatches(db, payloads))
  {
    var after := QueueBatches(db, payloads);
    NewRowsExtend(db.outbox, db.nextId, payloads);
    ExtensionKeepsItems(db, after.outbox, after.nextId);
    assert after == db.(outbox := after.outbox, nextId := after.nextId);
  }

  lemma QueueClient(w: World, scan: Scan, changed: seq<Entry>, deleted: seq<Entry>)
    requires ClientAt(w, -1) && PendingOf(w.db.outbox) == [] && Proper(scan)
    requires IsPlan(scan, w.db.known, QuarantineOf(w.db.outbox), changed, deleted)
    ensures var payloads := ChunkPayloads(scan.completeRead, changed + deleted, MANIFEST_BATCH_SIZE);
            ClientAt(World(QueueBatches(w.db, payloads), w.server, Delivering), -1)
  {
    QueuedWaiting(w.db, scan, changed, deleted);
    QueuedTables(w.db, ChunkPayloads(scan.completeRead, changed + deleted, MANIFEST_BATCH_SIZE));
  }

  // ---------- capturing pending batches ----------

  lemma CapturedIsPending(outbox: seq<Batch>, selected: seq<Batch>, captured: seq<nat>)
    requires selected <= PendingOf(outbox) && captured == Dedup(IdList(selected))
    ensures AllPending(outbox, captured)
  {
    PendingMembers(outbox);
    forall id | id in captured ensures exists b :: b in outbox && b.id == id && b.state == Pending {
      var k :| 0 <= k < |selected| && IdList(selected)[k] == id;
      assert selected[k] == PendingOf(outbox)[k];
      assert selected[k] in PendingOf(outbox);
    }
  }

  lemma SelectedIds(db: Db, selected: seq<Batch>, captured: seq<nat>)
    requires UniqueRows(db.outbox, db.nextId) && selected <= PendingOf(db.outbox) && selected != []
    requires captured == Dedup(IdList(selected))
    ensures captured != [] && forall id :: id in captured ==> id < db.nextId && exists b :: b in selected && b.id == id
    ensures forall b :: b in selected ==> b in db.outbox
  {
    PendingMembers(db.outbox);
    assert selected[0].id == IdList(selected)[0] && IdList(selected)[0] in IdList(selected);
    forall b | b in selected ensures b in db.outbox && b.id < db.nextId {
      var k :| 0 <= k < |selected| && selected[k] == b;
      assert b == PendingOf(db.outbox)[k];
      assert b in PendingOf(db.outbox);
    }
    forall id | id in captured ensures exists b :: b in selected && b.id == id {
      var k :| 0 <= k < |selected| && IdList(selected)[k] == id;
      assert selected[k] in selected;
    }
  }

  lemma SelectedEntry(db: Db, selected: seq<Batch>, b: Batch, e: Entry)
    requires UniqueRows(db.outbox, db.nextId) && EligibleForBulk(selected)
    requires b in selected && b in db.outbox && e in EntriesAt(db.outbox, b.id)
    ensures e.operation == Upsert
  {
    var i :| 0 <= i < |db.outbox| && db.outbox[i] == b;
    EntriesAtRow(db.outbox, i);
    EntriesMembers(selected);
    assert HashedUpsert(e);
  }

  lemma NewItemOk(db: Db, selected: seq<Batch>, captured: seq<nat>)
    requires UniqueRows(db.outbox, db.nextId) && selected <= PendingOf(db.outbox) && EligibleForBulk(selected)
    requires captured == Dedup(IdList(selected))
    ensures captured != [] && forall id :: id in captured ==> id < db.nextId
    ensures forall e :: e in RowsOf(db.outbox, captured) ==> e.operation == Upsert
  {
    assert selected != [];
    SelectedIds(db, selected, captured);
    forall e | e in RowsOf(db.outbox, captured) ensures e.operation == Upsert {
      RowsMembers(db.outbox, captured, e);
      var id :| id in captured && e in EntriesAt(db.outbox, id);
      var b :| b in selected && b.id == id;
      SelectedEntry(db, selected, b, e);
    }
  }

  lemma FreshSnapshot(db: Db)
    requires ItemsOk(db)
    ensures FindSnapshot(db.bulks, db.nextId).None?
  {
    forall i | 0 <= i < |db.bulks| ensures db.bulks[i].snapshot != db.nextId {
      assert ItemOk(db, db.bulks[i]);
    }
  }

  function NewBulk(db: Db, artifact: Artifact, selected: seq<Batch>): BulkItem {
    BulkItem(db.nextId + 1, db.nextId, artifact, Prepared, None, None, 0, false, 0, Dedup(IdList(selected)))
  }

  lemma QueueBulkParts(db: Db, artifact: Artifact, selected: seq<Batch>)
    requires FindSnapshot(db.bulks, db.nextId).None?
    requires QueueBulk(db.(nextId := db.nextId + 1), db.nextId, artifact, IdList(selected)).Success?
    ensures var item := NewBulk(db, artifact, selected);
            QueueBulk(db.(nextId := db.nextId + 1), db.nextId, artifact, IdList(selected))
            == Success((db.(bulks := db.bulks + [item], nextId := db.nextId + 2), item))
    ensures ActiveBulk(db.bulks).None?
  {
  }

  lemma NewItemClient(db: Db, item: BulkItem)
    requires TablesOk(db) && HotClient(db, -1)
    requires item.id == db.nextId + 1 && item.snapshot == db.nextId && item.captured != []
    requires item.appliedThrough == 0 && AllPending(db.outbox, item.captured)
    requires forall id :: id in item.captured ==> id < db.nextId
    requires forall e :: e in RowsOf(db.outbox, item.captured) ==> e.operation == Upsert
    ensures var after := db.(bulks := db.bulks + [item], nextId := db.nextId + 2);
            TablesOk(after) && HotClient(after, |db.bulks|)
  {
    var after := db.(bulks := db.bulks + [item], nextId := db.nextId + 2);
    forall i | 0 <= i < |after.bulks|
      ensures ItemOk(after, after.bulks[i])
      ensures i < |db.bulks| ==> after.bulks[i].id < db.nextId && after.bulks[i].snapshot < db.nextId
    {
      if i < |db.bulks| { assert ItemOk(db, db.bulks[i]); }
    }
  }

  lemma QueueBulkClient(w: World, selected: seq<Batch>, artifact: Artifact)
    requires ClientAt(w, -1) && selected <= PendingOf(w.db.outbox) && EligibleForBulk(selected)
    requires QueueBulk(w.db.(nextId := w.db.nextId + 1), w.db.nextId, artifact, IdList(selected)).Success?
    ensures var item := NewBulk(w.db, artifact, selected);
            var after := w.db.(bulks := w.db.bulks + [item], nextId := w.db.nextId + 2);
            && QueueBulk(w.db.(nextId := w.db.nextId + 1), w.db.nextId, artifact, IdList(selected))
               == Success((after, item))
            && ClientAt(World(after, w.server, Resuming(item.id)), |w.db.bulks|)
  {
    var item := NewBulk(w.db, artifact, selected);
    FreshSnapshot(w.db);
    QueueBulkParts(w.db, artifact, selected);
    NewItemOk(w.db, selected, item.captured);
    CapturedIsPending(w.db.outbox, selected, item.captured);
    NewItemClient(w.db, item);
  }
}
