/** Falling back, recording statuses, queueing, splitting and sending batches keep both
    parts of the invariant. */
module SyncSafety {
  import opened Options
  import opened Manifest
  import opened Outbox
  import opened Planning
  import opened SyncProtocol
  import opened SyncInvariant
  import opened SyncSteps
  import opened SyncTables
  import opened SyncClient
  import Splitting

  // ---------- what the lists depend on ----------

  lemma PendingRepliesStay(db: Db, s: Server, after: Db)
    requires RepliesOk(db, s) && after.nextId >= db.nextId
    requires forall b :: b in after.outbox && b.state == Pending ==> b in db.outbox || b.key.scan >= db.nextId
    ensures RepliesOk(after, s)
  {
  }

  lemma SameImports(a: Db, b: Db, imports: seq<Import>)
    requires ImportsOk(a, imports) && a.bulks == b.bulks && a.outbox == b.outbox && a.nextId == b.nextId
    ensures ImportsOk(b, imports)
  {
    forall i | 0 <= i < |b.bulks| ensures BindingOk(b, b.bulks[i], imports) {
      assert BindingOk(a, a.bulks[i], imports);
    }
  }

  /** The item keeps its identity and its import. */
  ghost predicate BoundAlike(before: BulkItem, after: BulkItem) {
    && after.id == before.id && after.snapshot == before.snapshot && after.captured == before.captured
    && after.serverImport == before.serverImport
  }

  lemma UpdatedLists(db: Db, s: Server, h: nat, item: BulkItem, after: Db)
    requires ListsOk(db, s) && h < |db.bulks| && BoundAlike(db.bulks[h], item)
    requires (Terminal(item.state) && item.serverImport.Some? && item.serverImport.value < |s.imports|)
             ==> !Live(s.imports[item.serverImport.value].status)
    requires after.bulks == db.bulks[h := item] && after.outbox == db.outbox && after.nextId == db.nextId
    ensures ListsOk(after, s)
  {
    var updated := db.(bulks := db.bulks[h := item]);
    ItemUpdateKeepsImports(db, s.imports, h, item);
    SameImports(updated, after, s.imports);
    ItemUpdateKeepsSubmissions(db.bulks, s.imports, h, item);
    PendingRepliesStay(db, s, after);
  }

  lemma KeepsTwice(w: World, h: int, mid: World, h1: int, after: World, h2: int)
    requires Keeps(w, h, mid, h1) && Keeps(mid, h1, after, h2)
    ensures Keeps(w, h, after, h2)
  {
  }

  // ---------- falling back ----------

  /** Giving an item up is safe exactly when its import is not running. */
  lemma FallBackServer(w: World, h: int, bulk: nat, state: ImportStatus)
    requires InvAt(w, h) && Holds(w, h, bulk) && state in {FailedPermanent, Cancelled, Expired}
    requires HoldsBound(w, h, bulk) ==> !Live(StatusOf(w, h))
    ensures ServerAt(FallBack(w, bulk, state), -1)
  {
    HeldItem(w, h, bulk);
    FallBackParts(w, h, bulk, state);
    UpdatedLists(w.db, w.server, h, GivenUp(w.db.bulks[h], state), FallBack(w, bulk, state).db);
  }

  lemma FallBackKeeps(w: World, h: int, bulk: nat, state: ImportStatus)
    requires ClientAt(w, h) && Holds(w, h, bulk) && state in {FailedPermanent, Cancelled, Expired}
    requires ServerAt(w, h) && HoldsBound(w, h, bulk) ==> !Live(StatusOf(w, h))
    ensures Keeps(w, h, FallBack(w, bulk, state), -1)
  {
    FallBackClient(w, h, bulk, state);
    if ServerAt(w, h) { FallBackServer(w, h, bulk, state); }
  }

  // ---------- recording a status ----------

  lemma RecordServer(w: World, h: int, bulk: nat, status: ImportStatus, next: Pc)
    requires InvAt(w, h) && HoldsBound(w, h, bulk) && StillGood(StatusOf(w, h), status)
    requires next in {EscapeDeciding(bulk, status), Polling(bulk, status), Uploading(bulk)}
    requires next.Uploading? ==> status == AwaitingUpload
    ensures ServerAt(Record(w, bulk, status, next), h)
  {
    HeldItem(w, h, bulk);
    RecordParts(w, h, bulk, status, next);
    UpdatedLists(w.db, w.server, h, Reported(w.db.bulks[h], status), Record(w, bulk, status, next).db);
  }

  lemma RecordKeeps(w: World, h: int, bulk: nat, status: ImportStatus, next: Pc)
    requires ClientAt(w, h) && Holds(w, h, bulk)
    requires ServerAt(w, h) ==> HoldsBound(w, h, bulk) && StillGood(StatusOf(w, h), status)
    requires next in {EscapeDeciding(bulk, status), Polling(bulk, status), Uploading(bulk)}
    requires next.Uploading? ==> status == AwaitingUpload
    ensures Keeps(w, h, Record(w, bulk, status, next), h)
  {
    RecordClient(w, h, bulk, status, next);
    if ServerAt(w, h) { RecordServer(w, h, bulk, status, next); }
  }

  // ---------- storing an answer ----------

  lemma StoredServer(w: World)
    requires InvAt(w, -1) && w.pc.Answered?
    ensures ServerAt(StepCommit(w), -1)
  {
    var b, response := w.pc.batch, w.pc.response;
    var after := Stored(w.db, b, response);
    StoredParts(w, b, response);
    ResolvedTables(w.db.outbox, after.outbox, b, StoredState(b, response), RefusedBy(b, response));
    ExtensionKeepsImports(w.db, w.server.imports, after.outbox, w.db.nextId);
    SameImports(w.db.(outbox := after.outbox, nextId := w.db.nextId), after, w.server.imports);
    PendingRepliesStay(w.db, w.server, after);
  }

  lemma StoredKeeps(w: World, h: int)
    requires ClientAt(w, h) && w.pc.Answered?
    ensures Keeps(w, h, StepCommit(w), -1)
  {
    StoredClient(w, h);
    if ServerAt(w, h) { StoredServer(w); }
  }

  // ---------- queueing and splitting ----------

  lemma SplitServer(w: World)
    requires InvAt(w, -1)
    ensures ServerAt(World(Split(w.db, MANIFEST_BATCH_SIZE), w.server, Sending), -1)
  {
    var after := Split(w.db, MANIFEST_BATCH_SIZE);
    Splitting.SplitConservesPending(w.db, MANIFEST_BATCH_SIZE);
    SplitExtends(w.db, MANIFEST_BATCH_SIZE);
    SplitAddsFreshKeys(w.db, MANIFEST_BATCH_SIZE);
    ExtensionKeepsImports(w.db, w.server.imports, after.outbox, after.nextId);
    assert after == w.db.(outbox := after.outbox, nextId := after.nextId);
    PendingRepliesStay(w.db, w.server, after);
  }

  lemma SplitKeeps(w: World)
    requires ClientAt(w, -1)
    ensures Keeps(w, -1, World(Split(w.db, MANIFEST_BATCH_SIZE), w.server, Sending), -1)
  {
    SplitClient(w);
    if ServerAt(w, -1) { SplitServer(w); }
  }

  lemma QueuedKeys(db: Db, payloads: seq<Payload>)
    ensures forall b :: b in QueueBatches(db, payloads).outbox ==> b in db.outbox || b.key.scan >= db.nextId
  {
  }

  lemma QueueServer(w: World, payloads: seq<Payload>)
    requires InvAt(w, -1)
    ensures ServerAt(World(QueueBatches(w.db, payloads), w.server, Delivering), -1)
  {
    var after := QueueBatches(w.db, payloads);
    NewRowsExtend(w.db.outbox, w.db.nextId, payloads);
    ExtensionKeepsImports(w.db, w.server.imports, after.outbox, after.nextId);
    assert after == w.db.(outbox := after.outbox, nextId := after.nextId);
    QueuedKeys(w.db, payloads);
    PendingRepliesStay(w.db, w.server, after);
  }

  lemma QueueKeeps(w: World, scan: Scan, changed: seq<Entry>, deleted: seq<Entry>)
    requires ClientAt(w, -1) && PendingOf(w.db.outbox) == [] && Proper(scan)
    requires IsPlan(scan, w.db.known, QuarantineOf(w.db.outbox), changed, deleted)
    ensures var payloads := ChunkPayloads(scan.completeRead, changed + deleted, MANIFEST_BATCH_SIZE);
            Keeps(w, -1, World(QueueBatches(w.db, payloads), w.server, Delivering), -1)
  {
    QueueClient(w, scan, changed, deleted);
    if ServerAt(w, -1) {
      QueueServer(w, ChunkPayloads(scan.completeRead, changed + deleted, MANIFEST_BATCH_SIZE));
    }
  }

  // ---------- requests for batches ----------

  lemma SubmitClient(w: World, h: int, lost: bool, v: Verdict, expired: bool)
    requires ClientAt(w, h) && w.pc == Sending
    ensures h == -1 && ClientAt(StepSubmit(w, lost, v, expired), -1)
    ensures PendingOf(w.db.outbox) != [] ==>
              PendingOf(w.db.outbox)[0] in w.db.outbox && PendingOf(w.db.outbox)[0].state == Pending
  {
    var pending := PendingOf(w.db.outbox);
    PendingMembers(w.db.outbox);
    if pending != [] { assert pending[0] in pending; }
  }

  lemma ReplyStored(db: Db, s: Server, b: Batch, r: Response)
    requires RepliesOk(db, s) && UniqueRows(db.outbox, db.nextId)
    requires b in db.outbox && b.state == Pending && Honest(s.occurrences, b, r)
    ensures RepliesOk(db, s.(replies := s.replies[b.key := r]))
  {
    var at :| 0 <= at < |db.outbox| && db.outbox[at] == b;
    forall c | c in db.outbox && c.key == b.key ensures c == b {
      var i :| 0 <= i < |db.outbox| && db.outbox[i] == c;
    }
  }

  /** Processing a pending batch keeps the stored responses good, and its own is. */
  lemma SubmittedReplies(db: Db, s: Server, b: Batch, v: Verdict, expired: bool)
    requires TablesOk(db) && RepliesOk(db, s) && b in db.outbox && b.state == Pending
    ensures var done := Submit(s, b, v, expired);
            RepliesOk(db, done.0) && Honest(done.0.occurrences, b, done.1) && done.0.imports == s.imports
  {
    if !(b.key in s.replies && !expired) {
      var done := Process(s.occurrences, b.entries, b.reliable, v);
      ProcessWrites(db.outbox, s.occurrences, b, v);
      WritesKeepReplies(db, s, done.0);
      forall e | e in b.entries && Accepts(e, b.reliable, ResultFor(done.1, e.item))
        ensures Lookup(done.0, e.item) == Effect(e)
      {
        ProcessIsHonest(s.occurrences, b.entries, b.reliable, v, e);
      }
      ReplyStored(db, s.(occurrences := done.0), b, Response(done.1, RejectedCount(done.1)));
    }
  }

  lemma SubmitKeeps(w: World, h: int, lost: bool, v: Verdict, expired: bool)
    requires ClientAt(w, h) && w.pc == Sending
    ensures Keeps(w, h, StepSubmit(w, lost, v, expired), h)
  {
    SubmitClient(w, h, lost, v, expired);
    if ServerAt(w, h) && PendingOf(w.db.outbox) != [] {
      SubmittedReplies(w.db, w.server, PendingOf(w.db.outbox)[0], v, expired);
    }
  }
}
