/** The manifest tables of one source, as values, and what each committed
    transaction does to them.  The class LocalState implements these functions. */
module Outbox {
  import opened Options
  import opened Manifest
  import Descriptions

  // ---------- tables ----------

  datatype BatchState = Pending | Sent | Failed | Discarded

  datatype BatchKey = BatchKey(scan: nat, sequence: nat)

  /** A row of ManifestOutbox.  `failures` holds the entries of its failure note. */
  datatype Batch = Batch(
    id: nat, key: BatchKey, reliable: bool, entries: seq<Entry>, state: BatchState, failures: seq<Entry>)

  datatype ImportStatus =
    | AwaitingUpload | Queued | Running | RetryDue
    | Succeeded | CompletedWithErrors | FailedPermanent | Cancelled | Expired

  /** The State column of BulkManifestOutbox.  Server statuses are stored there
      verbatim, so the three local failure states are server statuses too. */
  datatype BulkState = Prepared | At(status: ImportStatus) | ResultReady | ApplyingResult | Applied

  datatype BulkItem = BulkItem(
    id: nat, snapshot: nat, artifact: Artifact, state: BulkState,
    serverImport: Option<nat>, serverStatus: Option<ImportStatus>, processed: nat,
    resultSaved: bool, appliedThrough: nat, captured: seq<nat>)

  datatype Artifact = Artifact(sha256: string, bytes: nat, entryCount: nat)

  /** Rows are kept in the order of (CreatedAtUtc, SequenceNumber); `nextId` is
      the source of fresh identifiers. */
  datatype Db = Db(
    source: nat, known: Inventory, outbox: seq<Batch>, bulks: seq<BulkItem>,
    desc: Descriptions.Tables, nextId: nat)

  datatype Refusal =
    | InvalidSize | NotFound | AlreadyActive | DifferentContent | NotPendingMembers | NotHashedUpserts
    | CountMismatch | BoundElsewhere | ProcessedTooLarge | ResultUnavailable | NotVerified | EmptyPage
    | NotContiguous | UnsupportedOutcome | UploadRequired | UnsafePlaceholder | IdentityMismatch
    | NotUpsert | MissingIdentity | NotSucceeded | NotFullyApplied | MemberMissing | InvalidState

  datatype Row = Row(number: int, entry: Entry, result: EntryResult)

  /** Batch identifiers and idempotency keys are unique, and `nextId` is fresh. */
  ghost predicate UniqueRows(outbox: seq<Batch>, nextId: nat) {
    && (forall b :: b in outbox ==> b.id < nextId && b.key.scan < nextId)
    && (forall i, j :: 0 <= i < j < |outbox| ==> outbox[i].id != outbox[j].id && outbox[i].key != outbox[j].key)
  }

  // ---------- reading ----------

  function PendingOf(outbox: seq<Batch>): seq<Batch> {
    if outbox == [] then []
    else
      var last := outbox[|outbox| - 1];
      PendingOf(outbox[..|outbox| - 1]) + if last.state == Pending then [last] else []
  }

  lemma {:induction false} PendingMembers(outbox: seq<Batch>)
    ensures forall b :: b in PendingOf(outbox) <==> b in outbox && b.state == Pending
  {
    if outbox != [] {
      PendingMembers(outbox[..|outbox| - 1]);
      assert outbox == outbox[..|outbox| - 1] + [outbox[|outbox| - 1]];
    }
  }

  function EntriesOf(batches: seq<Batch>): seq<Entry> {
    if batches == [] then [] else EntriesOf(batches[..|batches| - 1]) + batches[|batches| - 1].entries
  }

  /** The revisions noted as failed, the latest row for an item winning. */
  function QuarantineOf(outbox: seq<Batch>): map<string, string> {
    if outbox == [] then map[]
    else
      var last := outbox[|outbox| - 1];
      var before := QuarantineOf(outbox[..|outbox| - 1]);
      if last.state == Failed then NoteFailures(before, last.failures) else before
  }

  function NoteFailures(blocked: map<string, string>, failures: seq<Entry>): map<string, string> {
    if failures == [] then blocked
    else
      var last := failures[|failures| - 1];
      var before := NoteFailures(blocked, failures[..|failures| - 1]);
      if last.item != "" && last.revision != "" then before[last.item := last.revision] else before
  }

  predicate Terminal(state: BulkState) {
    state == Applied || state in {At(FailedPermanent), At(Cancelled), At(Expired)}
  }

  /** The active item, newest first. */
  function ActiveBulk(bulks: seq<BulkItem>): (b: Option<BulkItem>)
    ensures b.Some? ==> b.value in bulks && !Terminal(b.value.state)
    ensures b.None? ==> forall item :: item in bulks ==> Terminal(item.state)
  {
    if bulks == [] then None
    else
      var last := bulks[|bulks| - 1];
      if !Terminal(last.state) then Some(last) else ActiveBulk(bulks[..|bulks| - 1])
  }

  function FindBulk(bulks: seq<BulkItem>, id: nat): (i: Option<nat>)
    ensures i.Some? ==> i.value < |bulks| && bulks[i.value].id == id
    ensures i.None? ==> forall k :: 0 <= k < |bulks| ==> bulks[k].id != id
  {
    if bulks == [] then None
    else if bulks[|bulks| - 1].id == id then Some(|bulks| - 1)
    else FindBulk(bulks[..|bulks| - 1], id)
  }

  function FindSnapshot(bulks: seq<BulkItem>, snapshot: nat): (b: Option<BulkItem>)
    ensures b.Some? ==> b.value in bulks && b.value.snapshot == snapshot
    ensures b.None? ==> forall item :: item in bulks ==> item.snapshot != snapshot
  {
    if bulks == [] then None
    else if bulks[|bulks| - 1].snapshot == snapshot then Some(bulks[|bulks| - 1])
    else FindSnapshot(bulks[..|bulks| - 1], snapshot)
  }

  // ---------- updating batch rows ----------

  function SetBatch(outbox: seq<Batch>, id: nat, state: BatchState, failures: seq<Entry>): seq<Batch> {
    seq(|outbox|, i requires 0 <= i < |outbox| =>
      if outbox[i].id == id then outbox[i].(state := state, failures := failures) else outbox[i])
  }

  function DiscardPending(outbox: seq<Batch>, ids: set<nat>): seq<Batch> {
    seq(|outbox|, i requires 0 <= i < |outbox| =>
      if outbox[i].id in ids && outbox[i].state == Pending
      then outbox[i].(state := Discarded, failures := []) else outbox[i])
  }

  function FailPending(outbox: seq<Batch>, id: nat, failures: seq<Entry>): seq<Batch> {
    seq(|outbox|, i requires 0 <= i < |outbox| =>
      if outbox[i].id == id && outbox[i].state == Pending
      then outbox[i].(state := Failed, failures := failures) else outbox[i])
  }

  // ---------- queueing and splitting ----------

  datatype Payload = Payload(reliable: bool, entries: seq<Entry>)

  /** New pending rows for the payloads of one scan. */
  function NewBatches(scan: nat, firstId: nat, payloads: seq<Payload>): seq<Batch> {
    seq(|payloads|, i requires 0 <= i < |payloads| =>
      Batch(firstId + i, BatchKey(scan, i), payloads[i].reliable, payloads[i].entries, Pending, []))
  }

  /** begin_scan followed by queue_batches: a fresh scan identifier, then one row
      for each payload. */
  function QueueBatches(db: Db, payloads: seq<Payload>): Db {
    db.(outbox := db.outbox + NewBatches(db.nextId, db.nextId + 1, payloads),
        nextId := db.nextId + 1 + |payloads|)
  }

  function Chunks<T>(items: seq<T>, size: nat): (cs: seq<seq<T>>)
    requires size > 0
    ensures forall c :: c in cs ==> 1 <= |c| <= size
  {
    if items == [] then []
    else if |items| <= size then [items]
    else [items[..size]] + Chunks(items[size..], size)
  }

  function ChunkPayloads(reliable: bool, entries: seq<Entry>, size: nat): seq<Payload>
    requires size > 0
  {
    var cs := Chunks(entries, size);
    seq(|cs|, i requires 0 <= i < |cs| => Payload(reliable, cs[i]))
  }

  predicate IsOversized(b: Batch, size: nat) {
    b.state == Pending && |b.entries| > size
  }

  function Oversized(outbox: seq<Batch>, size: nat): seq<Batch> {
    if outbox == [] then []
    else
      var last := outbox[|outbox| - 1];
      Oversized(outbox[..|outbox| - 1], size) + if IsOversized(last, size) then [last] else []
  }

  lemma {:induction false} OversizedMembers(outbox: seq<Batch>, size: nat)
    ensures forall b :: b in Oversized(outbox, size) <==> b in outbox && IsOversized(b, size)
  {
    if outbox != [] {
      OversizedMembers(outbox[..|outbox| - 1], size);
      assert outbox == outbox[..|outbox| - 1] + [outbox[|outbox| - 1]];
    }
  }

  function Pieces(oversized: seq<Batch>, size: nat): seq<Payload>
    requires size > 0
  {
    if oversized == [] then []
    else
      var last := oversized[|oversized| - 1];
      Pieces(oversized[..|oversized| - 1], size) + ChunkPayloads(last.reliable, last.entries, size)
  }

  function SetOf(ids: seq<nat>): set<nat> {
    set id | id in ids
  }

  function IdList(batches: seq<Batch>): seq<nat> {
    seq(|batches|, i requires 0 <= i < |batches| => batches[i].id)
  }

  function IdsOf(batches: seq<Batch>): set<nat> {
    set b | b in batches :: b.id
  }

  function Split(db: Db, size: nat): Db
    requires size > 0
  {
    var oversized := Oversized(db.outbox, size);
    if oversized == [] then db
    else
      var pieces := Pieces(oversized, size);
      db.(outbox := DiscardPending(db.outbox, IdsOf(oversized)) + NewBatches(db.nextId, db.nextId + 1, pieces),
          nextId := db.nextId + 1 + |pieces|)
  }

  // ---------- resolving a delivered batch ----------

  function StoreOf(db: Db): Store {
    Store(db.known, db.desc)
  }

  predicate Clean(batch: Batch, response: Response) {
    Refused(batch.entries, batch.reliable, response.results) == [] && response.rejectedCount == 0
  }

  function Acknowledge(db: Db, batch: Batch, response: Response): Db {
    var failures := Refused(batch.entries, batch.reliable, response.results);
    var store := DeliverAll(db.source, StoreOf(db), Accepted(batch.entries, batch.reliable, response.results));
    db.(known := store.known, desc := store.desc,
        outbox := SetBatch(db.outbox, batch.id, if Clean(batch, response) then Sent else Failed, failures))
  }

  function RejectRequest(db: Db, batch: Batch): Db {
    db.(outbox := FailPending(db.outbox, batch.id, batch.entries))
  }

  // ---------- one bulk import in place of many batches ----------

  function Dedup(ids: seq<nat>): (r: seq<nat>)
    ensures forall id :: id in r <==> id in ids
    ensures forall i, j :: 0 <= i < j < |r| ==> r[i] != r[j]
  {
    if ids == [] then []
    else
      var front := Dedup(ids[..|ids| - 1]);
      if ids[|ids| - 1] in front then front else front + [ids[|ids| - 1]]
  }

  function Members(outbox: seq<Batch>, ids: set<nat>): seq<Batch> {
    if outbox == [] then []
    else
      var last := outbox[|outbox| - 1];
      Members(outbox[..|outbox| - 1], ids) + if last.state == Pending && last.id in ids then [last] else []
  }

  predicate HashedUpsert(e: Entry) {
    e.operation == Upsert && IsSha256(e.contentHash)
  }

  function QueueBulk(db: Db, snapshot: nat, artifact: Artifact, batchIds: seq<nat>): Result<(Db, BulkItem), Refusal> {
    if artifact.bytes == 0 || artifact.entryCount == 0 then Failure(InvalidSize)
    else
      var ids := Dedup(batchIds);
      var active := ActiveBulk(db.bulks);
      var existing := FindSnapshot(db.bulks, snapshot);
      if active.Some? && active.value.snapshot != snapshot then Failure(AlreadyActive)
      else if existing.Some? then
        if existing.value.artifact != artifact || existing.value.captured != ids then Failure(DifferentContent)
        else Success((db, existing.value))
      else
        var members := Members(db.outbox, SetOf(ids));
        if ids != [] && IdsOf(members) != SetOf(ids) then Failure(NotPendingMembers)
        else if ids != [] && exists e :: e in EntriesOf(members) && !HashedUpsert(e) then Failure(NotHashedUpserts)
        else if ids != [] && |EntriesOf(members)| != artifact.entryCount then Failure(CountMismatch)
        else
          var item := BulkItem(db.nextId, snapshot, artifact, Prepared, None, None, 0, false, 0, ids);
          Success((db.(bulks := db.bulks + [item], nextId := db.nextId + 1), item))
  }

  function SetServerImport(db: Db, id: nat, serverImport: nat, status: ImportStatus): Result<Db, Refusal> {
    var i := FindBulk(db.bulks, id);
    if i.None? then Failure(NotFound)
    else
      var item := db.bulks[i.value];
      if item.serverImport.Some? && item.serverImport.value != serverImport then Failure(BoundElsewhere)
      else Success(db.(bulks := db.bulks[i.value :=
        item.(serverImport := Some(serverImport), serverStatus := Some(status), state := At(status))]))
  }

  function UpdateStatus(db: Db, id: nat, status: ImportStatus, processed: Option<nat>): Result<Db, Refusal> {
    var i := FindBulk(db.bulks, id);
    if i.None? then Failure(NotFound)
    else
      var item := db.bulks[i.value];
      if processed.Some? && processed.value > item.artifact.entryCount then Failure(ProcessedTooLarge)
      else Success(db.(bulks := db.bulks[i.value :=
        item.(state := At(status), serverStatus := Some(status),
              processed := if processed.Some? then processed.value else item.processed)]))
  }

  function RecordResult(db: Db, id: nat): Result<Db, Refusal> {
    var i := FindBulk(db.bulks, id);
    if i.None? then Failure(NotFound)
    else
      var item := db.bulks[i.value];
      if item.serverImport.None? || item.serverStatus !in {Some(Succeeded), Some(CompletedWithErrors)}
      then Failure(ResultUnavailable)
      else Success(db.(bulks := db.bulks[i.value := item.(state := ResultReady, resultSaved := true)]))
  }

  const INVALID_ROW_PREFIX := "__invalid_row__:"

  function RowError(row: Row, expected: int, entryCount: nat): Option<Refusal> {
    if row.number != expected || row.number > entryCount then Some(NotContiguous)
    else if row.result.outcome !in {CreatedOccurrence, UpdatedOccurrence, DuplicateLinked, Unchanged, Rejected}
    then Some(UnsupportedOutcome)
    else if row.result.uploadRequired then Some(UploadRequired)
    else if row.result.outcome == Rejected then
      if row.result.item != row.entry.item && !(INVALID_ROW_PREFIX <= row.result.item)
      then Some(UnsafePlaceholder) else None
    else if row.entry.item == "" || row.entry.item != row.result.item then Some(IdentityMismatch)
    else if row.entry.operation != Upsert then Some(NotUpsert)
    else if row.entry.revision == "" || row.entry.fileName == "" then Some(MissingIdentity)
    else None
  }

  function FirstError(rows: seq<Row>, current: nat, entryCount: nat): Option<Refusal> {
    if rows == [] then None
    else
      var before := FirstError(rows[..|rows| - 1], current, entryCount);
      if before.Some? then before else RowError(rows[|rows| - 1], current + |rows|, entryCount)
  }

  /** The rows of a page that deliver something. */
  function Deliveries(rows: seq<Row>): seq<Delivery> {
    if rows == [] then []
    else
      var last := rows[|rows| - 1];
      Deliveries(rows[..|rows| - 1]) + if last.result.outcome == Rejected then [] else [(last.entry, last.result)]
  }

  function ApplyRows(db: Db, id: nat, rows: seq<Row>): Result<(Db, nat), Refusal> {
    if rows == [] then Failure(EmptyPage)
    else
      var i := FindBulk(db.bulks, id);
      if i.None? then Failure(NotFound)
      else
        var item := db.bulks[i.value];
        if item.state !in {ResultReady, ApplyingResult} then Failure(NotVerified)
        else
          var error := FirstError(rows, item.appliedThrough, item.artifact.entryCount);
          if error.Some? then Failure(error.value)
          else
            var store := DeliverAll(db.source, StoreOf(db), Deliveries(rows));
            var through := item.appliedThrough + |rows|;
            Success((db.(known := store.known, desc := store.desc,
                         bulks := db.bulks[i.value := item.(appliedThrough := through, state := ApplyingResult)]),
                     through))
  }

  function CompleteBulk(db: Db, id: nat): Result<Db, Refusal> {
    var i := FindBulk(db.bulks, id);
    if i.None? then Failure(NotFound)
    else
      var item := db.bulks[i.value];
      var ids := SetOf(item.captured);
      if item.serverStatus != Some(Succeeded) then Failure(NotSucceeded)
      else if item.appliedThrough != item.artifact.entryCount then Failure(NotFullyApplied)
      else if !(ids <= IdsOf(db.outbox)) then Failure(MemberMissing)
      else Success(db.(outbox := DiscardPending(db.outbox, ids),
                       bulks := db.bulks[i.value := item.(state := Applied)]))
  }

  function FailBulk(db: Db, id: nat, state: ImportStatus, serverStatus: Option<ImportStatus>): Result<Db, Refusal> {
    if state !in {FailedPermanent, Cancelled, Expired} then Failure(InvalidState)
    else
      var i := FindBulk(db.bulks, id);
      if i.None? then Failure(NotFound)
      else Success(db.(bulks := db.bulks[i.value :=
        db.bulks[i.value].(state := At(state),
                           serverStatus := if serverStatus.Some? then serverStatus else Some(state))]))
  }
}
