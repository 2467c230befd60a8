/** The synchronization protocol of one source: the client's durable tables, the
    server, and the program point of the (single) engine process.  One event is one
    committed transaction, one request to the server, or a crash; a lost response
    is a request whose effect stays while the engine stops. */
module SyncProtocol {
  import opened Options
  import opened Manifest
  import opened Outbox
  import opened Planning

  const BULK_AUTO_BATCH_THRESHOLD := 10
  const BULK_AUTO_ROW_THRESHOLD := 1000
  const BULK_RESULT_APPLY_PAGE_SIZE := 500

  // ---------- the server ----------

  datatype Import = Import(snapshot: nat, rows: seq<Entry>, status: ImportStatus, merged: bool, rejected: bool)

  /** The inventory of the source, the stored response of every idempotency key,
      and the imports (an import's identifier is its position). */
  datatype Server = Server(occurrences: Inventory, replies: map<BatchKey, Response>, imports: seq<Import>)

  /** What the server decides by itself: the upserts it rejects, and the created
      occurrences it links to content it already has. */
  datatype Verdict = Verdict(rejected: set<string>, linked: set<string>)

  predicate Repeats(seen: seq<Entry>, e: Entry) {
    exists s :: s in seen && s.item == e.item
  }

  function Judge(occurrences: Inventory, seen: seq<Entry>, e: Entry, reliable: bool, v: Verdict): Outcome {
    if Repeats(seen, e) then Rejected
    else match e.operation
      case Deleted => if reliable && e.item in occurrences then DeletedOccurrence else IgnoredDeletion
      case Upsert =>
        if e.item in v.rejected then Rejected
        else if e.item !in occurrences then (if e.item in v.linked then DuplicateLinked else CreatedOccurrence)
        else if occurrences[e.item] == OccurrenceOf(e) then Unchanged
        else UpdatedOccurrence
      case OtherOperation => Rejected
  }

  function Perform(occurrences: Inventory, e: Entry, outcome: Outcome): Inventory {
    if UpsertApplied(outcome) then occurrences[e.item := OccurrenceOf(e)]
    else if outcome == DeletedOccurrence then occurrences - {e.item}
    else occurrences
  }

  /** Process a manifest entry by entry. */
  function Process(occurrences: Inventory, entries: seq<Entry>, reliable: bool,
                   v: Verdict): (Inventory, seq<EntryResult>)
  {
    if entries == [] then (occurrences, [])
    else
      var n := |entries| - 1;
      var before := Process(occurrences, entries[..n], reliable, v);
      var outcome := Judge(before.0, entries[..n], entries[n], reliable, v);
      (Perform(before.0, entries[n], outcome),
       before.1 + [EntryResult(entries[n].item, outcome, false, 0, 0, 0)])
  }

  function RejectedCount(results: seq<EntryResult>): nat {
    if results == [] then 0
    else RejectedCount(results[..|results| - 1]) + if results[|results| - 1].outcome == Rejected then 1 else 0
  }

  /** A reused key replays the stored response, unless its record has expired. */
  function Submit(s: Server, b: Batch, v: Verdict, expired: bool): (Server, Response) {
    if b.key in s.replies && !expired then (s, s.replies[b.key])
    else
      var done := Process(s.occurrences, b.entries, b.reliable, v);
      var response := Response(done.1, RejectedCount(done.1));
      (s.(occurrences := done.0, replies := s.replies[b.key := response]), response)
  }

  predicate Live(status: ImportStatus) {
    status in {Queued, Running, RetryDue}
  }

  predicate Over(status: ImportStatus) {
    status in {Succeeded, CompletedWithErrors, FailedPermanent, Cancelled, Expired}
  }

  function ImportOf(imports: seq<Import>, snapshot: nat): (i: Option<nat>)
    ensures i.Some? ==> i.value < |imports| && imports[i.value].snapshot == snapshot
    ensures i.None? ==> forall k :: 0 <= k < |imports| ==> imports[k].snapshot != snapshot
  {
    if imports == [] then None
    else if imports[|imports| - 1].snapshot == snapshot then Some(|imports| - 1)
    else ImportOf(imports[..|imports| - 1], snapshot)
  }

  /** The key of an import names its snapshot, so a repeated create finds it. */
  function CreateImport(s: Server, snapshot: nat, rows: seq<Entry>): (Server, nat) {
    var existing := ImportOf(s.imports, snapshot);
    if existing.Some? then (s, existing.value)
    else (s.(imports := s.imports + [Import(snapshot, rows, AwaitingUpload, false, false)]), |s.imports|)
  }

  function SetStatus(s: Server, i: nat, status: ImportStatus): Server
    requires i < |s.imports|
  {
    s.(imports := s.imports[i := s.imports[i].(status := status)])
  }

  /** Completing the upload queues an import once. */
  function CompleteUpload(s: Server, i: nat): Server
    requires i < |s.imports|
  {
    if s.imports[i].status == AwaitingUpload then SetStatus(s, i, Queued) else s
  }

  /** The rows of an import a merge rejects: repeated items, and those it refuses. */
  predicate MergeRejects(rows: seq<Entry>, k: nat, refused: set<string>)
    requires k < |rows|
  {
    Repeats(rows[..k], rows[k]) || rows[k].item in refused
  }

  function Merge(occurrences: Inventory, rows: seq<Entry>, refused: set<string>): Inventory {
    if rows == [] then occurrences
    else
      var n := |rows| - 1;
      var before := Merge(occurrences, rows[..n], refused);
      if MergeRejects(rows, n, refused) then before else before[rows[n].item := OccurrenceOf(rows[n])]
  }

  predicate AnyRejected(rows: seq<Entry>, refused: set<string>) {
    exists k :: 0 <= k < |rows| && MergeRejects(rows, k, refused)
  }

  // ---------- the engine ----------

  datatype Transport = Auto | BulkOnly | BatchOnly

  /** The program point, with what the process holds in memory there. */
  datatype Pc =
    | Idle                                        // no process, or it stopped
    | Scanning                                    // nothing is left to deliver: scan and queue
    | Delivering                                  // about to choose a transport
    | EscapeReading(bulk: nat)                    // batch transport with a submitted import
    | EscapeRead(bulk: nat, status: ImportStatus)
    | EscapeDeciding(bulk: nat, status: ImportStatus)
    | Resuming(bulk: nat)
    | Created(bulk: nat, serverImport: nat, status: ImportStatus)
    | Refreshing(bulk: nat)
    | Refreshed(bulk: nat, status: ImportStatus)
    | Uploading(bulk: nat)
    | Reconciled(bulk: nat, status: ImportStatus)
    | Uploaded(bulk: nat, status: ImportStatus)
    | Polling(bulk: nat, status: ImportStatus)
    | Polled(bulk: nat, status: ImportStatus)
    | OpeningResult(bulk: nat)
    | ApplyingPages(bulk: nat)
    | Flushing                                    // about to split and send batches
    | Sending
    | Answered(batch: Batch, response: Option<Response>)  // no response: rejected for good

  datatype World = World(db: Db, server: Server, pc: Pc)

  datatype Event =
    // the engine
    | Start
    | Crash
    | QueueScan(scan: Scan, changed: seq<Entry>, deleted: seq<Entry>)
    | Choose(transport: Transport, maximumRows: Option<nat>, selected: seq<Batch>, artifact: Artifact)
    | ReadStatus                                  // the status request of the current point succeeds
    | StatusUnusable                              // it is rejected for good, or its answer is malformed
    | Commit                                      // the transaction the current point is about to make
    | CreateRequest(lost: bool, superseded: Option<nat>)
    | RequestRejected                             // create, upload or result request fails for good
    | CompleteRequest(lost: bool)
    | CompleteUnusable                            // the import was queued but the answer is malformed
    | NotAwaitingUpload                           // the upload refresh says so, and the status is read again
    | Decide(giveUp: bool)                        // a status answer is examined
    | OpenResult(fileExists: bool)
    | ApplyPage(size: nat, results: seq<EntryResult>)
    | FinishResult
    | SplitBatches
    | SubmitBatch(lost: bool, verdict: Verdict, expired: bool)
    | SubmitRejected
    // the server
    | ServerStart(i: nat)
    | ServerRetry(i: nat)
    | ServerMerge(i: nat, refused: set<string>)
    | ServerFinish(i: nat)
    | ServerAbort(i: nat, status: ImportStatus)

  function EntriesAt(outbox: seq<Batch>, id: nat): seq<Entry> {
    if outbox == [] then []
    else if outbox[|outbox| - 1].id == id then outbox[|outbox| - 1].entries
    else EntriesAt(outbox[..|outbox| - 1], id)
  }

  /** The rows an item captured, in captured order. */
  function RowsOf(outbox: seq<Batch>, captured: seq<nat>): seq<Entry> {
    if captured == [] then []
    else RowsOf(outbox, captured[..|captured| - 1]) + EntriesAt(outbox, captured[|captured| - 1])
  }

  predicate AllPending(outbox: seq<Batch>, captured: seq<nat>) {
    forall id :: id in captured ==> exists b :: b in outbox && b.id == id && b.state == Pending
  }

  predicate EligibleForBulk(selected: seq<Batch>) {
    EntriesOf(selected) != [] && forall e :: e in EntriesOf(selected) ==> HashedUpsert(e)
  }

  predicate ThresholdMet(selected: seq<Batch>) {
    |selected| >= BULK_AUTO_BATCH_THRESHOLD || |EntriesOf(selected)| >= BULK_AUTO_ROW_THRESHOLD
  }

  // ---------- one event ----------

  /** Record a terminal failure and fall back to batches. */
  function FallBack(w: World, bulk: nat, state: ImportStatus): World {
    var i := FindBulk(w.db.bulks, bulk);
    if i.None? then w
    else
      var r := FailBulk(w.db, bulk, state, w.db.bulks[i.value].serverStatus);
      if r.Success? then World(r.value, w.server, Flushing) else w
  }

  function StepChoose(w: World, e: Event): World
    requires e.Choose? && w.pc == Delivering
  {
    var active := ActiveBulk(w.db.bulks);
    if active.Some? then
      if e.transport != BatchOnly then w.(pc := Resuming(active.value.id))
      else if active.value.serverImport.None? then FallBack(w, active.value.id, Cancelled)
      else w.(pc := EscapeReading(active.value.id))
    else
      var pending := PendingOf(w.db.outbox);
      if pending == [] then w.(pc := Scanning)
      else if e.transport == BatchOnly then w.(pc := Flushing)
      else if !(e.selected <= pending) then w
      else if e.transport == Auto && !ThresholdMet(e.selected) then w.(pc := Flushing)
      else if !EligibleForBulk(e.selected) then w.(pc := Flushing)
      else
        var snapshot := w.db.nextId;
        var artifact := e.artifact.(entryCount := |EntriesOf(e.selected)|);
        var r := QueueBulk(w.db.(nextId := w.db.nextId + 1), snapshot, artifact, IdList(e.selected));
        if r.Failure? then w.(pc := Flushing)
        else World(r.value.0, w.server, Resuming(r.value.1.id))
  }

  /** The import of the item at hand, when the item is bound to one. */
  function Bound(w: World, bulk: nat): Option<nat> {
    var i := FindBulk(w.db.bulks, bulk);
    if i.Some? && w.db.bulks[i.value].serverImport.Some? && w.db.bulks[i.value].serverImport.value < |w.server.imports|
    then w.db.bulks[i.value].serverImport else None
  }

  function StepReadStatus(w: World): World {
    match w.pc
    case EscapeReading(b) =>
      var i := Bound(w, b); if i.None? then w else w.(pc := EscapeRead(b, w.server.imports[i.value].status))
    case Refreshing(b) =>
      var i := Bound(w, b); if i.None? then w else w.(pc := Refreshed(b, w.server.imports[i.value].status))
    case Polling(b, status) =>
      var i := Bound(w, b);
      if i.None? || Over(status) || status == RetryDue then w else w.(pc := Polled(b, w.server.imports[i.value].status))
    case _ => w
  }

  function StepStatusUnusable(w: World): World {
    match w.pc
    case EscapeReading(b) => FallBack(w, b, Cancelled)
    case Refreshing(b) => FallBack(w, b, FailedPermanent)
    case Polling(b, status) => if Over(status) || status == RetryDue then w else FallBack(w, b, FailedPermanent)
    case _ => w
  }

  /** Store a status and go on at `next`. */
  function Record(w: World, bulk: nat, status: ImportStatus, next: Pc): World {
    var r := UpdateStatus(w.db, bulk, status, None);
    if r.Success? then World(r.value, w.server, next) else w
  }

  function StepCommit(w: World): World {
    match w.pc
    case EscapeRead(b, status) => Record(w, b, status, EscapeDeciding(b, status))
    case Created(b, i, status) =>
      var r := SetServerImport(w.db, b, i, status);
      if r.Success? then World(r.value, w.server, Refreshing(b)) else FallBack(w, b, FailedPermanent)
    case Refreshed(b, status) =>
      Record(w, b, status, if status == AwaitingUpload then Uploading(b) else Polling(b, status))
    case Reconciled(b, status) =>
      Record(w, b, status, if status == AwaitingUpload then Uploading(b) else Polling(b, status))
    case Uploaded(b, status) => Record(w, b, status, Polling(b, status))
    case Polled(b, status) => Record(w, b, status, Polling(b, status))
    case Answered(batch, response) =>
      if response.Some? then World(Acknowledge(w.db, batch, response.value), w.server, Sending)
      else World(RejectRequest(w.db, batch), w.server, Sending)
    case _ => w
  }

  /** Only one unfinished import per source: another one must first be superseded
      by the expiry of its upload. */
  predicate Unfinished(imports: seq<Import>) {
    exists k :: 0 <= k < |imports| && !Over(imports[k].status)
  }

  function Supersede(s: Server, superseded: Option<nat>): Server {
    if superseded.Some? && superseded.value < |s.imports| && s.imports[superseded.value].status == AwaitingUpload
    then SetStatus(s, superseded.value, Expired) else s
  }

  function StepCreate(w: World, lost: bool, superseded: Option<nat>): World {
    if !w.pc.Resuming? then w
    else
      var i := FindBulk(w.db.bulks, w.pc.bulk);
      if i.None? then w
      else
        var item := w.db.bulks[i.value];
        if item.serverImport.Some? then w.(pc := Refreshing(item.id))
        else if !AllPending(w.db.outbox, item.captured) then FallBack(w, item.id, FailedPermanent)
        else
          var replay := ImportOf(w.server.imports, item.snapshot).Some?;
          var s := if replay then w.server else Supersede(w.server, superseded);
          if !replay && Unfinished(s.imports) then FallBack(w, item.id, FailedPermanent)
          else
            var c := CreateImport(s, item.snapshot, RowsOf(w.db.outbox, item.captured));
            World(w.db, c.0, if lost then Idle else Created(item.id, c.1, c.0.imports[c.1].status))
  }

  function StepRejected(w: World): World {
    match w.pc
    case Resuming(b) => if Bound(w, b).None? then FallBack(w, b, FailedPermanent) else w
    case Uploading(b) => FallBack(w, b, FailedPermanent)
    case OpeningResult(b) => FallBack(w, b, FailedPermanent)
    case ApplyingPages(b) => FallBack(w, b, FailedPermanent)
    case _ => w
  }

  function StepComplete(w: World, lost: bool): World {
    if !w.pc.Uploading? then w
    else
      var i := Bound(w, w.pc.bulk);
      if i.None? then w
      else
        var s := CompleteUpload(w.server, i.value);
        World(w.db, s, if lost then Idle else Uploaded(w.pc.bulk, s.imports[i.value].status))
  }

  function StepCompleteUnusable(w: World): World {
    if !w.pc.Uploading? then w
    else
      var i := Bound(w, w.pc.bulk);
      if i.None? then w
      else FallBack(w.(server := CompleteUpload(w.server, i.value)), w.pc.bulk, FailedPermanent)
  }

  function StepNotAwaiting(w: World): World {
    if !w.pc.Uploading? then w
    else
      var i := Bound(w, w.pc.bulk);
      if i.None? || w.server.imports[i.value].status == AwaitingUpload then w
      else w.(pc := Reconciled(w.pc.bulk, w.server.imports[i.value].status))
  }

  function StepDecide(w: World, giveUp: bool): World {
    match w.pc
    case EscapeDeciding(b, status) =>
      if status == AwaitingUpload then FallBack(w, b, Cancelled)
      else if Live(status) then w.(pc := Idle)
      else w.(pc := Resuming(b))
    case Polling(b, status) =>
      if status == RetryDue then w.(pc := Idle)
      else if !Over(status) then w
      else if status != Succeeded || giveUp then FallBack(w, b, FailedPermanent)
      else w.(pc := OpeningResult(b))
    case _ => w
  }

  /** A result that is saved and still on disk is used as it is; any other one is
      fetched, verified and saved before the captured rows are looked at. */
  function StepOpenResult(w: World, fileExists: bool): World {
    if !w.pc.OpeningResult? then w
    else
      var i := FindBulk(w.db.bulks, w.pc.bulk);
      if i.None? then w
      else
        var item := w.db.bulks[i.value];
        var saved := if item.resultSaved && fileExists then Success(w.db) else RecordResult(w.db, item.id);
        if saved.Failure? then FallBack(w, item.id, FailedPermanent)
        else if |RowsOf(w.db.outbox, item.captured)| != item.artifact.entryCount
                || !AllPending(w.db.outbox, item.captured)
        then FallBack(w.(db := saved.value), item.id, FailedPermanent)
        else World(saved.value, w.server, ApplyingPages(item.id))
  }

  /** The next page of the verified result: the rows after the cursor. */
  function NextPage(rows: seq<Entry>, results: seq<EntryResult>, cursor: nat, size: nat): seq<Row>
    requires |results| == |rows| && cursor + size <= |rows|
  {
    seq(size, k requires 0 <= k < size => Row(cursor + k + 1, rows[cursor + k], results[cursor + k]))
  }

  /** A result file of a succeeded import answers every row, and rejects none. */
  ghost predicate Truthful(rows: seq<Entry>, results: seq<EntryResult>) {
    |results| == |rows| && forall k :: 0 <= k < |rows| ==> results[k].outcome != Rejected
  }

  ghost function StepApplyPage(w: World, size: nat, results: seq<EntryResult>): World {
    if !w.pc.ApplyingPages? then w
    else
      var i := FindBulk(w.db.bulks, w.pc.bulk);
      if i.None? then w
      else
        var item := w.db.bulks[i.value];
        var rows := RowsOf(w.db.outbox, item.captured);
        if !Truthful(rows, results) then w
        else if !(1 <= size <= BULK_RESULT_APPLY_PAGE_SIZE && item.appliedThrough + size <= |rows|) then w
        else
          var r := ApplyRows(w.db, item.id, NextPage(rows, results, item.appliedThrough, size));
          if r.Success? then w.(db := r.value.0) else FallBack(w, item.id, FailedPermanent)
  }

  function StepFinish(w: World): World {
    if !w.pc.ApplyingPages? then w
    else
      var r := CompleteBulk(w.db, w.pc.bulk);
      if r.Failure? then FallBack(w, w.pc.bulk, FailedPermanent)
      else World(r.value, w.server, if PendingOf(r.value.outbox) == [] then Scanning else Idle)
  }

  function StepSubmit(w: World, lost: bool, verdict: Verdict, expired: bool): World {
    var pending := PendingOf(w.db.outbox);
    if w.pc != Sending then w
    else if pending == [] then w.(pc := Scanning)
    else
      var s := Submit(w.server, pending[0], verdict, expired);
      World(w.db, s.0, if lost then Idle else Answered(pending[0], Some(s.1)))
  }

  function StepServer(s: Server, e: Event): Server {
    match e
    case ServerStart(i) =>
      if i < |s.imports| && s.imports[i].status in {Queued, RetryDue} then SetStatus(s, i, Running) else s
    case ServerRetry(i) =>
      if i < |s.imports| && s.imports[i].status == Running then SetStatus(s, i, RetryDue) else s
    case ServerMerge(i, refused) =>
      if i < |s.imports| && s.imports[i].status == Running && !s.imports[i].merged then
        var rows := s.imports[i].rows;
        s.(occurrences := Merge(s.occurrences, rows, refused),
           imports := s.imports[i := s.imports[i].(merged := true, rejected := AnyRejected(rows, refused))])
      else s
    case ServerFinish(i) =>
      if i < |s.imports| && s.imports[i].status == Running && s.imports[i].merged
      then SetStatus(s, i, if s.imports[i].rejected then CompletedWithErrors else Succeeded) else s
    case ServerAbort(i, status) =>
      if i < |s.imports| && !Over(s.imports[i].status) && status in {FailedPermanent, Cancelled, Expired}
      then SetStatus(s, i, status) else s
    case _ => s
  }

  ghost function Step(w: World, e: Event): World {
    match e
    case Start => if w.pc != Idle then w else w.(pc := if PendingOf(w.db.outbox) == [] then Scanning else Delivering)
    case Crash => w.(pc := Idle)
    case QueueScan(scan, changed, deleted) =>
      if w.pc != Scanning || !Proper(scan) then w
      else if !IsPlan(scan, w.db.known, QuarantineOf(w.db.outbox), changed, deleted) then w
      else if changed + deleted == [] then w.(pc := Idle)
      else
        var payloads := ChunkPayloads(scan.completeRead, changed + deleted, MANIFEST_BATCH_SIZE);
        World(QueueBatches(w.db, payloads), w.server, Delivering)
    case Choose(_, maximumRows, selected, _) =>
      if w.pc != Delivering || !IsBoundedPrefix(PendingOf(w.db.outbox), maximumRows, selected) then w
      else StepChoose(w, e)
    case ReadStatus => StepReadStatus(w)
    case StatusUnusable => StepStatusUnusable(w)
    case Commit => StepCommit(w)
    case CreateRequest(lost, superseded) => StepCreate(w, lost, superseded)
    case RequestRejected => StepRejected(w)
    case CompleteRequest(lost) => StepComplete(w, lost)
    case CompleteUnusable => StepCompleteUnusable(w)
    case NotAwaitingUpload => StepNotAwaiting(w)
    case Decide(giveUp) => StepDecide(w, giveUp)
    case OpenResult(fileExists) => StepOpenResult(w, fileExists)
    case ApplyPage(size, results) => StepApplyPage(w, size, results)
    case FinishResult => StepFinish(w)
    case SplitBatches => if w.pc != Flushing then w else World(Split(w.db, MANIFEST_BATCH_SIZE), w.server, Sending)
    case SubmitBatch(lost, verdict, expired) => StepSubmit(w, lost, verdict, expired)
    case SubmitRejected =>
      if w.pc != Sending || PendingOf(w.db.outbox) == [] then w
      else w.(pc := Answered(PendingOf(w.db.outbox)[0], None))
    case _ => w.(server := StepServer(w.server, e))
  }

  /** A start: the inventories agree, and what is already queued (in batches of any
      size) was never sent. */
  ghost predicate Fresh(w: World) {
    && w.pc == Idle && w.db.bulks == [] && w.server.imports == [] && w.server.replies == map[]
    && w.db.known == w.server.occurrences && "" !in w.db.known
    && UniqueRows(w.db.outbox, w.db.nextId)
    && DistinctItems(EntriesOf(PendingOf(w.db.outbox)))
    && forall e :: e in EntriesOf(PendingOf(w.db.outbox)) ==> e.operation != OtherOperation && e.item != ""
  }

  ghost function Run(start: World, events: seq<Event>): World {
    if events == [] then start else Step(Run(start, events[..|events| - 1]), events[|events| - 1])
  }

  predicate AnyLive(s: Server) {
    exists k :: 0 <= k < |s.imports| && Live(s.imports[k].status)
  }

  /** The points at which the engine asks for the status of an import. */
  predicate AsksStatus(pc: Pc) {
    || pc.EscapeReading? || pc.Refreshing?
    || (pc.Polling? && !Over(pc.status) && pc.status != RetryDue)
  }

  /** An unusable answer is about to cost an import: a status is asked for while the
      bound import is queued, running or due for a retry, or an upload is completed
      that is not over.  Completing an upload queues the import before its answer. */
  predicate GivesUpLive(w: World, e: Event) {
    match e
    case StatusUnusable =>
      AsksStatus(w.pc) && Bound(w, w.pc.bulk).Some? && Live(w.server.imports[Bound(w, w.pc.bulk).value].status)
    case CompleteUnusable =>
      w.pc.Uploading? && Bound(w, w.pc.bulk).Some? && !Over(w.server.imports[Bound(w, w.pc.bulk).value].status)
    case _ => false
  }

  /** Runs in which no unusable answer comes at such a point.  Unusable answers that
      cost no import may occur. */
  ghost predicate KeepsImports(start: World, events: seq<Event>) {
    forall i :: 0 <= i < |events| ==> !GivesUpLive(Run(start, events[..i]), events[i])
  }
}
