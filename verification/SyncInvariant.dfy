/** The inductive invariant of the synchronization protocol. */
module SyncInvariant {
  import opened Options
  import opened Manifest
  import opened Outbox
  import opened SyncProtocol

  /** The entries still waiting for delivery. */
  ghost function Waiting(outbox: seq<Batch>): set<Entry> {
    set b, e | b in outbox && b.state == Pending && e in b.entries :: e
  }

  /** The entries noted as refused. */
  ghost function Noted(outbox: seq<Batch>): set<Entry> {
    set b, e | b in outbox && b.state == Failed && e in b.failures :: e
  }

  /** At most one entry waits for an item, and it is an upsert or a deletion. */
  ghost predicate Functional(outbox: seq<Batch>) {
    && (forall a, b :: a in Waiting(outbox) && b in Waiting(outbox) && a.item == b.item ==> a == b)
    && (forall e :: e in Waiting(outbox) ==> e.operation != OtherOperation)
  }

  /** Every entry the response accepts is in effect on the server. */
  ghost predicate Honest(occurrences: Inventory, b: Batch, r: Response) {
    forall e :: e in b.entries && Accepts(e, b.reliable, ResultFor(r.results, e.item)) ==>
        Lookup(occurrences, e.item) == Effect(e)
  }

  ghost predicate InEffect(inventory: Inventory, rows: seq<Entry>) {
    forall e :: e in rows ==> Lookup(inventory, e.item) == Effect(e)
  }

  // ---------- the client's part: kept by every event ----------

  ghost predicate ItemsOk(db: Db) {
    && (forall i :: 0 <= i < |db.bulks| ==> ItemOk(db, db.bulks[i]))
    && (forall i, j :: 0 <= i < j < |db.bulks| ==>
          db.bulks[i].id != db.bulks[j].id && db.bulks[i].snapshot != db.bulks[j].snapshot)
  }

  ghost predicate ItemOk(db: Db, item: BulkItem) {
    && item.id < db.nextId && item.snapshot < db.nextId && item.captured != []
    && (forall id :: id in item.captured ==> id < db.nextId)
    && (forall e :: e in RowsOf(db.outbox, item.captured) ==> e.operation == Upsert)
  }

  ghost predicate TablesOk(db: Db) {
    UniqueRows(db.outbox, db.nextId) && Functional(db.outbox) && ItemsOk(db)
  }

  /** The rows of an item up to its cursor are in effect in the client's record. */
  ghost predicate RowsKnown(db: Db, item: BulkItem) {
    var rows := RowsOf(db.outbox, item.captured);
    forall k :: 0 <= k < item.appliedThrough && k < |rows| ==> Lookup(db.known, rows[k].item) == Effect(rows[k])
  }

  /** The one item that may be active, or held by the process: `h`, or none. */
  ghost predicate HotClient(db: Db, h: int) {
    && -1 <= h < |db.bulks|
    && (forall i :: 0 <= i < |db.bulks| && i != h ==> Terminal(db.bulks[i].state))
    && (h >= 0 ==> AllPending(db.outbox, db.bulks[h].captured) && RowsKnown(db, db.bulks[h]))
  }

  ghost predicate Holds(w: World, h: int, bulk: nat) {
    0 <= h < |w.db.bulks| && w.db.bulks[h].id == bulk
  }

  ghost predicate PointClient(w: World, h: int) {
    match w.pc
    case Idle => true
    case Delivering => true
    case Scanning => h == -1 && PendingOf(w.db.outbox) == []
    case Flushing => h == -1
    case Sending => h == -1
    case Answered(batch, _) => h == -1 && batch in w.db.outbox && batch.state == Pending
    case Polling(b, status) => Holds(w, h, b) && w.db.bulks[h].serverStatus == Some(status)
    case OpeningResult(b) => Holds(w, h, b) && w.db.bulks[h].serverStatus == Some(Succeeded)
    case ApplyingPages(b) =>
      && Holds(w, h, b) && w.db.bulks[h].serverStatus == Some(Succeeded)
      && |RowsOf(w.db.outbox, w.db.bulks[h].captured)| == w.db.bulks[h].artifact.entryCount
    case _ => Holds(w, h, w.pc.bulk)
  }

  /** The tables and the program point fit together, whatever the server does. */
  ghost predicate ClientAt(w: World, h: int) {
    TablesOk(w.db) && HotClient(w.db, h) && PointClient(w, h)
  }

  // ---------- the server's part: kept while no running import is given up ----------

  /** Imports belong to items by snapshot and carry exactly the captured rows. */
  ghost predicate ImportsOk(db: Db, imports: seq<Import>) {
    && (forall k :: 0 <= k < |imports| ==> imports[k].snapshot < db.nextId)
    && (forall j, k :: 0 <= j < k < |imports| ==> imports[j].snapshot != imports[k].snapshot)
    && (forall k :: 0 <= k < |imports| && imports[k].status == Succeeded ==> imports[k].merged && !imports[k].rejected)
    && (forall i :: 0 <= i < |db.bulks| ==> BindingOk(db, db.bulks[i], imports))
  }

  ghost predicate BindingOk(db: Db, item: BulkItem, imports: seq<Import>) {
    && (item.serverImport.Some? ==>
          item.serverImport.value < |imports| && imports[item.serverImport.value].snapshot == item.snapshot)
    && (forall k :: 0 <= k < |imports| && imports[k].snapshot == item.snapshot ==>
          imports[k].rows == RowsOf(db.outbox, item.captured))
  }

  ghost predicate BoundTo(item: BulkItem, k: int, active: bool) {
    item.serverImport.Some? && item.serverImport.value == k && (active ==> !Terminal(item.state))
  }

  /** A submitted import was bound to an item before, and one that is not over is
      bound to an item that is still active. */
  ghost predicate SubmissionsOk(bulks: seq<BulkItem>, imports: seq<Import>) {
    forall k :: 0 <= k < |imports| && (Live(imports[k].status) || imports[k].merged) ==>
      exists i :: 0 <= i < |bulks| && BoundTo(bulks[i], k, Live(imports[k].status))
  }

  /** A stored response to a pending batch is good: what it accepts is in effect. */
  ghost predicate RepliesOk(db: Db, s: Server) {
    && (forall key :: key in s.replies ==> key.scan < db.nextId)
    && (forall b :: b in db.outbox && b.state == Pending && b.key in s.replies ==>
        Honest(s.occurrences, b, s.replies[b.key]))
  }

  /** A clean merge of the hot item's import put its rows in effect. */
  ghost predicate HotServer(w: World, h: int) {
    0 <= h < |w.db.bulks| && w.db.bulks[h].serverImport.Some?
    && w.db.bulks[h].serverImport.value < |w.server.imports| ==>
      var i := w.server.imports[w.db.bulks[h].serverImport.value];
      i.merged && !i.rejected ==> InEffect(w.server.occurrences, RowsOf(w.db.outbox, w.db.bulks[h].captured))
  }

  /** A status answer that is still good: a final one stays, and an import awaiting
      its upload is not submitted behind the client's back. */
  ghost predicate StillGood(now: ImportStatus, answered: ImportStatus) {
    (Over(answered) ==> now == answered) && (answered == AwaitingUpload ==> !Live(now))
  }

  ghost predicate HoldsBound(w: World, h: int, bulk: nat) {
    Holds(w, h, bulk) && w.db.bulks[h].serverImport.Some? && w.db.bulks[h].serverImport.value < |w.server.imports|
  }

  function StatusOf(w: World, h: int): ImportStatus
    requires 0 <= h < |w.db.bulks| && w.db.bulks[h].serverImport.Some?
             && w.db.bulks[h].serverImport.value < |w.server.imports|
  {
    w.server.imports[w.db.bulks[h].serverImport.value].status
  }

  ghost predicate PointServer(w: World, h: int) {
    match w.pc
    case Idle => true
    case Delivering => true
    case Scanning => true
    case Flushing => true
    case Sending => true
    case Resuming(b) => true
    case Answered(batch, response) => response.Some? ==> Honest(w.server.occurrences, batch, response.value)
    case Created(b, i, status) =>
      && Holds(w, h, b) && w.db.bulks[h].serverImport.None? && i < |w.server.imports|
      && w.server.imports[i].snapshot == w.db.bulks[h].snapshot && StillGood(w.server.imports[i].status, status)
      && !Live(w.server.imports[i].status) && !w.server.imports[i].merged
    case EscapeReading(b) => HoldsBound(w, h, b)
    case Refreshing(b) => HoldsBound(w, h, b)
    case Uploading(b) => HoldsBound(w, h, b) && !Live(StatusOf(w, h)) && w.db.bulks[h].state == At(AwaitingUpload)
    case EscapeRead(b, status) => HoldsBound(w, h, b) && StillGood(StatusOf(w, h), status)
    case EscapeDeciding(b, status) => HoldsBound(w, h, b) && StillGood(StatusOf(w, h), status)
    case Refreshed(b, status) => HoldsBound(w, h, b) && StillGood(StatusOf(w, h), status)
    case Reconciled(b, status) => HoldsBound(w, h, b) && StillGood(StatusOf(w, h), status)
    case Uploaded(b, status) => HoldsBound(w, h, b) && StillGood(StatusOf(w, h), status)
    case Polling(b, status) => HoldsBound(w, h, b) && StillGood(StatusOf(w, h), status)
    case Polled(b, status) => HoldsBound(w, h, b) && StillGood(StatusOf(w, h), status)
    case OpeningResult(b) => HoldsBound(w, h, b) && StatusOf(w, h) == Succeeded
    case ApplyingPages(b) => HoldsBound(w, h, b) && StatusOf(w, h) == Succeeded
  }

  ghost predicate ListsOk(db: Db, s: Server) {
    ImportsOk(db, s.imports) && SubmissionsOk(db.bulks, s.imports) && RepliesOk(db, s)
  }

  ghost predicate ServerAt(w: World, h: int) {
    ListsOk(w.db, w.server) && HotServer(w, h) && PointServer(w, h)
  }

  ghost predicate InvAt(w: World, h: int) {
    ClientAt(w, h) && ServerAt(w, h)
  }

  /** An event leads to `after`: the client's part is kept, and the server's part too. */
  ghost predicate Keeps(w: World, h: int, after: World, h': int) {
    ClientAt(after, h') && (ServerAt(w, h) ==> ServerAt(after, h'))
  }
}
