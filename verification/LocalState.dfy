/** The durable local state of one source: every method is one committed
    transaction (a refused one leaves no trace), written with the loops of
    state.py and proved against the transaction functions of Outbox. */
module LocalStates {
  import opened Options
  import opened Manifest
  import opened Outbox
  import Descriptions
  import Splitting
  import Permutations

  const MAX_SPLIT_SIZE := 500

  class LocalState {
    const source: nat
    var known: Inventory
    var outbox: seq<Batch>
    var bulks: seq<BulkItem>
    var desc: Descriptions.Tables
    var nextId: nat

    function Snapshot(): Db
      reads this
    {
      Db(source, known, outbox, bulks, desc, nextId)
    }

    constructor (source: nat)
      ensures Snapshot() == Db(source, map[], [], [], Descriptions.Tables(map[], map[], 0), 0)
    {
      this.source := source;
      known, outbox, bulks := map[], [], [];
      desc, nextId := Descriptions.Tables(map[], map[], 0), 0;
    }

    // ---------- batches ----------

    method QueueBatches(payloads: seq<Payload>)
      modifies this
      ensures Snapshot() == Outbox.QueueBatches(old(Snapshot()), payloads)
    {
      var scan, firstId := nextId, nextId + 1;
      var rows := [];
      for sequence := 0 to |payloads|
        invariant rows == NewBatches(scan, firstId, payloads[..sequence])
      {
        var payload := payloads[sequence];
        var id, key := firstId + sequence, BatchKey(scan, sequence);
        rows := rows + [Batch(id, key, payload.reliable, payload.entries, Pending, [])];
      }
      assert payloads[..|payloads|] == payloads;
      outbox, nextId := outbox + rows, firstId + |rows|;
    }

    method PendingBatches() returns (batches: seq<Batch>)
      ensures batches == PendingOf(outbox)
    {
      batches := [];
      for i := 0 to |outbox|
        invariant batches == PendingOf(outbox[..i])
      {
        assert outbox[..i + 1][..i] == outbox[..i];
        if outbox[i].state == Pending {
          batches := batches + [outbox[i]];
        }
      }
      assert outbox[..|outbox|] == outbox;
    }

    method OversizedBatches(size: nat) returns (oversized: seq<Batch>)
      ensures oversized == Oversized(outbox, size)
    {
      oversized := [];
      for i := 0 to |outbox|
        invariant oversized == Oversized(outbox[..i], size)
      {
        assert outbox[..i + 1][..i] == outbox[..i];
        if IsOversized(outbox[i], size) {
          oversized := oversized + [outbox[i]];
        }
      }
      assert outbox[..|outbox|] == outbox;
    }

    /** No pending row is over the size afterwards, and the same entries wait. */
    method SplitOversizedPendingBatches(size: int) returns (r: Result<(nat, nat), Refusal>)
      modifies this
      ensures r.Failure? <==> !(1 <= size <= MAX_SPLIT_SIZE)
      ensures r.Failure? ==> Snapshot() == old(Snapshot())
      ensures r.Success? ==> Snapshot() == Split(old(Snapshot()), size)
      ensures r.Success? ==> var oversized := Oversized(old(outbox), size);
                             r.value == (|oversized|, |Pieces(oversized, size)|)
    {
      if !(1 <= size <= MAX_SPLIT_SIZE) { return Failure(InvalidSize); }
      var oversized := OversizedBatches(size);
      if oversized == [] { return Success((0, 0)); }

      var replacements := ReplacementRows(oversized, size, nextId, nextId + 1);
      SplitRows(Snapshot(), size, replacements);
      outbox := DiscardPending(outbox, IdsOf(oversized)) + replacements;
      nextId := nextId + 1 + |replacements|;
      r := Success((|oversized|, |replacements|));
    }

    /** The replacement rows: consecutive sequence numbers under one fresh scan. */
    method ReplacementRows(oversized: seq<Batch>, size: nat, scan: nat, firstId: nat) returns (rows: seq<Batch>)
      requires size > 0
      ensures rows == NewBatches(scan, firstId, Pieces(oversized, size))
    {
      rows := [];
      ghost var pieces: seq<Payload> := [];
      for k := 0 to |oversized|
        invariant pieces == Pieces(oversized[..k], size)
        invariant rows == NewBatches(scan, firstId, pieces)
      {
        assert oversized[..k + 1][..k] == oversized[..k];
        rows, pieces := AppendPieces(rows, scan, firstId, oversized[k], size, pieces);
      }
      assert oversized[..|oversized|] == oversized;
    }

    /** The pieces of one oversized batch, in order. */
    method AppendPieces(rows: seq<Batch>, scan: nat, firstId: nat, batch: Batch, size: nat, ghost before: seq<Payload>)
      returns (longer: seq<Batch>, ghost pieces: seq<Payload>)
      requires size > 0 && rows == NewBatches(scan, firstId, before)
      ensures pieces == before + ChunkPayloads(batch.reliable, batch.entries, size)
      ensures longer == NewBatches(scan, firstId, pieces)
    {
      longer, pieces := rows, before;
      var start := 0;
      assert batch.entries[0..] == batch.entries;
      while start < |batch.entries|
        invariant 0 <= start <= |batch.entries|
        invariant before + ChunkPayloads(batch.reliable, batch.entries, size)
                  == pieces + ChunkPayloads(batch.reliable, batch.entries[start..], size)
        invariant longer == NewBatches(scan, firstId, pieces)
      {
        var end := if start + size <= |batch.entries| then start + size else |batch.entries|;
        Splitting.ChunkPayloadsStep(batch.reliable, batch.entries, start, end, size);
        var piece := Payload(batch.reliable, batch.entries[start..end]);
        Permutations.Associative(pieces, [piece], ChunkPayloads(batch.reliable, batch.entries[end..], size));
        longer := AppendRow(longer, scan, firstId, piece, pieces);
        pieces := pieces + [piece];
        start := end;
      }
      NothingLeft(batch.reliable, batch.entries, start, size);
      assert pieces + [] == pieces;
    }

    method AppendRow(rows: seq<Batch>, scan: nat, firstId: nat, piece: Payload, ghost pieces: seq<Payload>)
      returns (longer: seq<Batch>)
      requires rows == NewBatches(scan, firstId, pieces)
      ensures longer == NewBatches(scan, firstId, pieces + [piece])
    {
      Splitting.NewBatchesSnoc(scan, firstId, pieces, piece);
      longer := rows + [Batch(firstId + |rows|, BatchKey(scan, |rows|), piece.reliable, piece.entries, Pending, [])];
    }

    method ResultsByItem(results: seq<EntryResult>) returns (byItem: map<string, EntryResult>)
      ensures forall item :: (item in byItem <==> ResultFor(results, item).Some?)
      ensures forall item :: item in byItem ==> ResultFor(results, item) == Some(byItem[item])
    {
      byItem := map[];
      for i := 0 to |results|
        invariant forall item :: (item in byItem <==> ResultFor(results[..i], item).Some?)
        invariant forall item :: item in byItem ==> ResultFor(results[..i], item) == Some(byItem[item])
      {
        assert results[..i + 1][..i] == results[..i];
        if results[i].item != "" {
          byItem := byItem[results[i].item := results[i]];
        }
      }
      assert results[..|results|] == results;
    }

    method DeliverEach(accepted: seq<Delivery>) returns (store: Store)
      ensures store == DeliverAll(source, StoreOf(Snapshot()), accepted)
    {
      store := Store(known, desc);
      for i := 0 to |accepted|
        invariant store == DeliverAll(source, StoreOf(Snapshot()), accepted[..i])
      {
        var (entry, result) := accepted[i];
        assert accepted[..i + 1][..i] == accepted[..i];
        if entry.operation == Upsert {
          var tables := Descriptions.QueueInTransaction(store.desc, source, entry.photo, result.job,
              IdentityOf(entry, result));
          store := Store(store.known[entry.item := OccurrenceOf(entry)], tables);
        } else if entry.operation == Deleted {
          var affected := Descriptions.JobsOfItem(store.desc.candidates, source, entry.item, 0);
          var left := store.desc.(candidates := Descriptions.WithoutItem(store.desc.candidates, source, entry.item, 0));
          var tables := Descriptions.ReselectEach(left, affected);
          store := Store(store.known - {entry.item}, tables);
        }
      }
      assert accepted[..|accepted|] == accepted;
    }

    /** Tell the accepted entries, with their results, from the refused ones. */
    method JudgeEntries(batch: Batch, results: seq<EntryResult>) returns (accepted: seq<Delivery>, failures: seq<Entry>)
      ensures accepted == Accepted(batch.entries, batch.reliable, results)
      ensures failures == Refused(batch.entries, batch.reliable, results)
    {
      var byItem := ResultsByItem(results);
      accepted, failures := [], [];
      for i := 0 to |batch.entries|
        invariant accepted == Accepted(batch.entries[..i], batch.reliable, results)
        invariant failures == Refused(batch.entries[..i], batch.reliable, results)
      {
        var entry := batch.entries[i];
        assert batch.entries[..i + 1][..i] == batch.entries[..i];
        var result := if entry.item in byItem then Some(byItem[entry.item]) else None;
        if Accepts(entry, batch.reliable, result) {
          accepted := accepted + [(entry, result.value)];
        } else {
          failures := failures + [entry];
        }
      }
      assert batch.entries[..|batch.entries|] == batch.entries;
    }

    /** Resolve a delivered batch; the count of accepted entries, of failures and
        the final state are what the caller reports. */
    method AcknowledgeBatch(batch: Batch, response: Response) returns (accepted: nat, failed: nat, state: BatchState)
      modifies this
      ensures Snapshot() == Acknowledge(old(Snapshot()), batch, response)
      ensures accepted == |Accepted(batch.entries, batch.reliable, response.results)|
      ensures state == (if Clean(batch, response) then Sent else Failed) && (failed == 0 <==> state == Sent)
      ensures var refused := |Refused(batch.entries, batch.reliable, response.results)|;
              failed == if response.rejectedCount > refused then refused + 1 else refused
    {
      var acceptedRows, failures := JudgeEntries(batch, response.results);
      failed := |failures| + if response.rejectedCount > |failures| then 1 else 0;
      accepted := |acceptedRows|;
      state := if failed > 0 then Failed else Sent;
      var store := DeliverEach(acceptedRows);
      known, desc := store.known, store.desc;
      outbox := SetBatch(outbox, batch.id, state, failures);
    }

    method QuarantineRequestError(batch: Batch)
      modifies this
      ensures Snapshot() == RejectRequest(old(Snapshot()), batch)
    {
      outbox := FailPending(outbox, batch.id, batch.entries);
    }

    method QuarantinedRevisions() returns (blocked: map<string, string>)
      ensures blocked == QuarantineOf(outbox)
    {
      blocked := map[];
      for i := 0 to |outbox|
        invariant blocked == QuarantineOf(outbox[..i])
      {
        assert outbox[..i + 1][..i] == outbox[..i];
        if outbox[i].state == Failed {
          var failures := outbox[i].failures;
          ghost var before := blocked;
          for k := 0 to |failures|
            invariant blocked == NoteFailures(before, failures[..k])
          {
            assert failures[..k + 1][..k] == failures[..k];
            if failures[k].item != "" && failures[k].revision != "" {
              blocked := blocked[failures[k].item := failures[k].revision];
            }
          }
          assert failures[..|failures|] == failures;
        }
      }
      assert outbox[..|outbox|] == outbox;
    }

    // ---------- the bulk import ----------

    method QueueBulkManifest(snapshot: nat, artifact: Artifact, batchIds: seq<nat>)
      returns (r: Result<BulkItem, Refusal>)
      modifies this
      ensures var expected := QueueBulk(old(Snapshot()), snapshot, artifact, batchIds);
              && (expected.Failure? ==> r == Failure(expected.error) && Snapshot() == old(Snapshot()))
              && (expected.Success? ==> r == Success(expected.value.1) && Snapshot() == expected.value.0)
    {
      if artifact.bytes == 0 || artifact.entryCount == 0 { return Failure(InvalidSize); }
      var ids := Dedup(batchIds);
      var active := ActiveBulk(bulks);
      if active.Some? && active.value.snapshot != snapshot { return Failure(AlreadyActive); }
      var existing := FindSnapshot(bulks, snapshot);
      if existing.Some? {
        if existing.value.artifact != artifact || existing.value.captured != ids { return Failure(DifferentContent); }
        return Success(existing.value);
      }
      if ids != [] {
        var members := Members(outbox, SetOf(ids));
        if IdsOf(members) != SetOf(ids) { return Failure(NotPendingMembers); }
        var represented := 0;
        for i := 0 to |members|
          invariant represented == |EntriesOf(members[..i])|
          invariant forall e :: e in EntriesOf(members[..i]) ==> HashedUpsert(e)
        {
          var entries := members[i].entries;
          assert members[..i + 1][..i] == members[..i];
          for k := 0 to |entries|
            invariant forall e :: e in entries[..k] ==> HashedUpsert(e)
          {
            if !HashedUpsert(entries[k]) {
              EntriesOfMember(members, i, k);
              return Failure(NotHashedUpserts);
            }
          }
          assert EntriesOf(members[..i + 1]) == EntriesOf(members[..i]) + entries;
          assert entries[..|entries|] == entries;
          represented := represented + |entries|;
        }
        assert members[..|members|] == members;
        if represented != artifact.entryCount { return Failure(CountMismatch); }
      }
      var item := BulkItem(nextId, snapshot, artifact, Prepared, None, None, 0, false, 0, ids);
      bulks, nextId := bulks + [item], nextId + 1;
      r := Success(item);
    }

    /** Check and deliver the rows of one page, starting right after the cursor. */
    method DeliverRows(before: Store, rows: seq<Row>, current: nat, entryCount: nat) returns (r: Result<Store, Refusal>)
      ensures r == RowsOutcome(source, before, rows, current, entryCount)
      ensures r.Success? && rows != [] ==> rows[|rows| - 1].number == current + |rows|
    {
      var store := before;
      var expected := current + 1;
      for i := 0 to |rows|
        invariant expected == current + 1 + i
        invariant i > 0 ==> rows[i - 1].number == current + i
        invariant FirstError(rows[..i], current, entryCount) == None
        invariant store == DeliverAll(source, before, Deliveries(rows[..i]))
      {
        var row := rows[i];
        NextRow(source, before, rows, i, current, entryCount);
        var error := RowError(row, expected, entryCount);
        if error.Some? { return Failure(error.value); }
        expected := expected + 1;
        if row.result.outcome == Rejected { continue; }
        store := DeliverRow(row, store);
      }
      assert rows[..|rows|] == rows;
      r := Success(store);
    }

    method DeliverRow(row: Row, before: Store) returns (store: Store)
      requires row.entry.operation == Upsert
      ensures store == Deliver(source, before, (row.entry, row.result))
    {
      var tables := Descriptions.QueueInTransaction(before.desc, source, row.entry.photo, row.result.job,
                                                    IdentityOf(row.entry, row.result));
      store := Store(before.known[row.entry.item := OccurrenceOf(row.entry)], tables);
    }

    /** A page moves the cursor and its deliveries together, or is refused whole. */
    method ApplyBulkResultRows(bulkId: nat, rows: seq<Row>) returns (r: Result<nat, Refusal>)
      modifies this
      ensures var expected := ApplyRows(old(Snapshot()), bulkId, rows);
              && (expected.Failure? ==> r == Failure(expected.error) && Snapshot() == old(Snapshot()))
              && (expected.Success? ==> r == Success(expected.value.1) && Snapshot() == expected.value.0)
    {
      if rows == [] { return Failure(EmptyPage); }
      var position := FindBulk(bulks, bulkId);
      if position.None? { return Failure(NotFound); }
      var bulk := bulks[position.value];
      if bulk.state !in {ResultReady, ApplyingResult} { return Failure(NotVerified); }
      AppliedRows(Snapshot(), bulkId, position.value, rows);
      r := ApplyOpenRows(bulk, position.value, rows, Snapshot());
    }

    /** The page of an item that is open for rows. */
    method ApplyOpenRows(bulk: BulkItem, i: nat, rows: seq<Row>, ghost before: Db) returns (r: Result<nat, Refusal>)
      requires rows != [] && i < |bulks| && bulks[i] == bulk && before == Snapshot()
      modifies this
      ensures var applied := PageOutcome(before, bulk, i, rows);
              && (applied.Failure? ==> r == Failure(applied.error) && Snapshot() == before)
              && (applied.Success? ==> r == Success(applied.value.1) && Snapshot() == applied.value.0)
    {
      var applied := DeliverRows(Store(known, desc), rows, bulk.appliedThrough, bulk.artifact.entryCount);
      if applied.Failure? { return Failure(applied.error); }
      r := MoveCursor(bulk, i, applied.value, rows[|rows| - 1].number, before);
    }

    method MoveCursor(bulk: BulkItem, i: nat, store: Store, through: nat, ghost before: Db)
      returns (r: Result<nat, Refusal>)
      requires i < |bulks| && before == Snapshot()
      modifies this
      ensures r == Success(through) && Snapshot() == CursorMoved(before, bulk, i, store, through)
    {
      known, desc, bulks :=
        store.known, store.desc, bulks[i := bulk.(appliedThrough := through, state := ApplyingResult)];
      r := Success(through);
    }

    /** The end of an item: its rows are all applied, so its batches need no sending. */
    method CompleteBulkManifest(bulkId: nat) returns (r: Result<(), Refusal>)
      modifies this
      ensures var expected := CompleteBulk(old(Snapshot()), bulkId);
              && (expected.Failure? ==> r == Failure(expected.error) && Snapshot() == old(Snapshot()))
              && (expected.Success? ==> r == Success(()) && Snapshot() == expected.value)
    {
      var position := FindBulk(bulks, bulkId);
      if position.None? { return Failure(NotFound); }
      var bulk := bulks[position.value];
      if bulk.serverStatus != Some(Succeeded) { return Failure(NotSucceeded); }
      if bulk.appliedThrough != bulk.artifact.entryCount { return Failure(NotFullyApplied); }
      var ids := SetOf(bulk.captured);
      if !(ids <= IdsOf(outbox)) { return Failure(MemberMissing); }
      outbox := DiscardPending(outbox, ids);
      bulks := bulks[position.value := bulk.(state := Applied)];
      r := Success(());
    }

    method SetBulkManifestServerImport(bulkId: nat, serverImport: nat, status: ImportStatus)
      returns (r: Result<(), Refusal>)
      modifies this
      ensures var expected := SetServerImport(old(Snapshot()), bulkId, serverImport, status);
              && (expected.Failure? ==> r == Failure(expected.error) && Snapshot() == old(Snapshot()))
              && (expected.Success? ==> r == Success(()) && Snapshot() == expected.value)
    {
      var position := FindBulk(bulks, bulkId);
      if position.None? { return Failure(NotFound); }
      var bulk := bulks[position.value];
      if bulk.serverImport.Some? && bulk.serverImport.value != serverImport { return Failure(BoundElsewhere); }
      bulks := bulks[position.value :=
        bulk.(serverImport := Some(serverImport), serverStatus := Some(status), state := At(status))];
      r := Success(());
    }

    method RecordBulkManifestResult(bulkId: nat) returns (r: Result<(), Refusal>)
      modifies this
      ensures var expected := RecordResult(old(Snapshot()), bulkId);
              && (expected.Failure? ==> r == Failure(expected.error) && Snapshot() == old(Snapshot()))
              && (expected.Success? ==> r == Success(()) && Snapshot() == expected.value)
    {
      var position := FindBulk(bulks, bulkId);
      if position.None? { return Failure(NotFound); }
      var bulk := bulks[position.value];
      if bulk.serverImport.None? || bulk.serverStatus !in {Some(Succeeded), Some(CompletedWithErrors)} {
        return Failure(ResultUnavailable);
      }
      bulks := bulks[position.value := bulk.(state := ResultReady, resultSaved := true)];
      r := Success(());
    }

    method UpdateBulkManifestStatus(bulkId: nat, status: ImportStatus, processed: Option<nat>)
      returns (r: Result<(), Refusal>)
      modifies this
      ensures var expected := UpdateStatus(old(Snapshot()), bulkId, status, processed);
              && (expected.Failure? ==> r == Failure(expected.error) && Snapshot() == old(Snapshot()))
              && (expected.Success? ==> r == Success(()) && Snapshot() == expected.value)
    {
      var position := FindBulk(bulks, bulkId);
      if position.None? { return Failure(NotFound); }
      var bulk := bulks[position.value];
      if processed.Some? && processed.value > bulk.artifact.entryCount { return Failure(ProcessedTooLarge); }
      bulk := bulk.(state := At(status), serverStatus := Some(status));
      if processed.Some? {
        bulk := bulk.(processed := processed.value);
      }
      bulks := bulks[position.value := bulk];
      r := Success(());
    }

    method FailBulkManifest(bulkId: nat, state: ImportStatus, serverStatus: Option<ImportStatus>)
      returns (r: Result<(), Refusal>)
      modifies this
      ensures var expected := FailBulk(old(Snapshot()), bulkId, state, serverStatus);
              && (expected.Failure? ==> r == Failure(expected.error) && Snapshot() == old(Snapshot()))
              && (expected.Success? ==> r == Success(()) && Snapshot() == expected.value)
    {
      if state !in {FailedPermanent, Cancelled, Expired} { return Failure(InvalidState); }
      var position := FindBulk(bulks, bulkId);
      if position.None? { return Failure(NotFound); }
      var recorded := if serverStatus.Some? then serverStatus else Some(state);
      bulks := bulks[position.value := bulks[position.value].(state := At(state), serverStatus := recorded)];
      r := Success(());
    }

    // ---------- explicitly prepared scene tasks ----------

    method QueueSceneDescriptionTasks(tasks: seq<Descriptions.Task>) returns (r: Result<(), Refusal>)
      modifies this
      ensures r.Success? <==> forall task :: task in tasks ==> task.source == source
      ensures Snapshot() == if r.Success?
                            then old(Snapshot()).(desc := Descriptions.QueueTasks(old(desc), source, tasks))
                            else old(Snapshot())
    {
      var tables := desc;
      for i := 0 to |tasks|
        invariant tables == Descriptions.QueueTasks(desc, source, tasks[..i])
        invariant forall task :: task in tasks[..i] ==> task.source == source
        invariant Snapshot() == old(Snapshot())
      {
        assert tasks[..i + 1][..i] == tasks[..i];
        if tasks[i].source != source { return Failure(IdentityMismatch); }
        tables := Descriptions.QueueTask(tables, source, tasks[i]);
      }
      assert tasks[..|tasks|] == tasks;
      desc := tables;
      r := Success(());
    }
  }

  lemma {:induction false} EntriesOfMember(members: seq<Batch>, i: nat, k: nat)
    requires i < |members| && k < |members[i].entries|
    ensures members[i].entries[k] in EntriesOf(members)
  {
    var last := |members| - 1;
    if i == last {
      assert EntriesOf(members)[|EntriesOf(members[..last])| + k] == members[i].entries[k];
    } else {
      EntriesOfMember(members[..last], i, k);
    }
  }

  lemma SplitRows(db: Db, size: nat, rows: seq<Batch>)
    requires size > 0 && Oversized(db.outbox, size) != []
    requires rows == NewBatches(db.nextId, db.nextId + 1, Pieces(Oversized(db.outbox, size), size))
    ensures Split(db, size) == db.(outbox := DiscardPending(db.outbox, IdsOf(Oversized(db.outbox, size))) + rows,
                                   nextId := db.nextId + 1 + |rows|)
    ensures |rows| == |Pieces(Oversized(db.outbox, size), size)|
  {
  }

  /** The rows of a page delivered, or the first error among them. */
  function RowsOutcome(source: nat, before: Store, rows: seq<Row>, current: nat,
                       entryCount: nat): Result<Store, Refusal>
  {
    var error := FirstError(rows, current, entryCount);
    if error.Some? then Failure(error.value) else Success(DeliverAll(source, before, Deliveries(rows)))
  }

  function CursorMoved(db: Db, item: BulkItem, i: nat, store: Store, through: nat): Db
    requires i < |db.bulks|
  {
    db.(known := store.known, desc := store.desc,
        bulks := db.bulks[i := item.(appliedThrough := through, state := ApplyingResult)])
  }

  /** What a page does once its item is found open for rows. */
  function PageOutcome(db: Db, item: BulkItem, i: nat, rows: seq<Row>): Result<(Db, nat), Refusal>
    requires i < |db.bulks|
  {
    var applied := RowsOutcome(db.source, StoreOf(db), rows, item.appliedThrough, item.artifact.entryCount);
    var through := item.appliedThrough + |rows|;
    if applied.Failure? then Failure(applied.error)
    else Success((CursorMoved(db, item, i, applied.value, through), through))
  }

  lemma AppliedRows(db: Db, id: nat, i: nat, rows: seq<Row>)
    requires rows != [] && FindBulk(db.bulks, id) == Some(i) && db.bulks[i].state in {ResultReady, ApplyingResult}
    ensures ApplyRows(db, id, rows) == PageOutcome(db, db.bulks[i], i, rows)
  {
  }

  lemma NothingLeft(reliable: bool, entries: seq<Entry>, start: nat, size: nat)
    requires size > 0 && start == |entries|
    ensures ChunkPayloads(reliable, entries[start..], size) == []
  {
    assert entries[start..] == [];
  }

  /** One more row of a page: the first error stays, and a clean row delivers. */
  lemma NextRow(source: nat, s: Store, rows: seq<Row>, i: nat, current: nat, entryCount: nat)
    requires i < |rows| && FirstError(rows[..i], current, entryCount) == None
    ensures var error := RowError(rows[i], current + 1 + i, entryCount);
            var store := DeliverAll(source, s, Deliveries(rows[..i]));
            && (error.Some? ==> FirstError(rows, current, entryCount) == error)
            && (error.None? ==> FirstError(rows[..i + 1], current, entryCount) == None)
            && DeliverAll(source, s, Deliveries(rows[..i + 1]))
               == if rows[i].result.outcome == Rejected then store
                  else Deliver(source, store, (rows[i].entry, rows[i].result))
  {
    assert rows[..i + 1][..i] == rows[..i];
    if RowError(rows[i], current + 1 + i, entryCount).Some? { FirstErrorStays(rows, i + 1, current, entryCount); }
    DeliverNext(source, s, Deliveries(rows[..i]), (rows[i].entry, rows[i].result));
    DeliveriesNext(rows, i);
  }

  lemma DeliveriesNext(rows: seq<Row>, i: nat)
    requires i < |rows|
    ensures Deliveries(rows[..i + 1])
         == if rows[i].result.outcome == Rejected then Deliveries(rows[..i])
            else Deliveries(rows[..i]) + [(rows[i].entry, rows[i].result)]
  {
    assert rows[..i + 1][..i] == rows[..i];
    assert Deliveries(rows[..i]) + [] == Deliveries(rows[..i]);
  }

  lemma DeliverNext(source: nat, s: Store, ds: seq<Delivery>, d: Delivery)
    ensures DeliverAll(source, s, ds + [d]) == Deliver(source, DeliverAll(source, s, ds), d)
  {
    assert (ds + [d])[..|ds|] == ds;
  }

  lemma {:induction false} FirstErrorStays(rows: seq<Row>, n: nat, current: nat, entryCount: nat)
    requires n <= |rows| && FirstError(rows[..n], current, entryCount).Some?
    ensures FirstError(rows, current, entryCount) == FirstError(rows[..n], current, entryCount)
  {
    if n == |rows| {
      assert rows[..n] == rows;
    } else {
      var front := rows[..|rows| - 1];
      assert front[..n] == rows[..n];
      FirstErrorStays(front, n, current, entryCount);
    }
  }
}
