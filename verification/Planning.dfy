/** What one synchronization queues, how it is cut into payloads, and which of the
    pending batches one bulk import captures. */
module Planning {
  import opened Options
  import opened Manifest
  import opened Outbox
  import opened BulkRefinement
  import Splitting

  const MANIFEST_BATCH_SIZE := 100

  /** A finished scan; `seen` holds the items that exist, readable or not. */
  datatype Scan = Scan(entries: seq<Entry>, seen: set<string>, completeRead: bool)

  /** The scanner reports upserts of distinct items it has seen. */
  ghost predicate Proper(scan: Scan) {
    DistinctItems(scan.entries) && forall e :: e in scan.entries ==>
        e.operation == Upsert && e.item != "" && e.item in scan.seen
  }

  predicate Blocked(quarantined: map<string, string>, item: string, revision: string) {
    item in quarantined && quarantined[item] == revision
  }

  predicate NeedsUpsert(e: Entry, known: Inventory, quarantined: map<string, string>) {
    !(e.item in known && known[e.item].revision == e.revision) && !Blocked(quarantined, e.item, e.revision)
  }

  predicate NeedsDeletion(item: string, scan: Scan, known: Inventory, quarantined: map<string, string>) {
    scan.completeRead && item in known && item !in scan.seen && !Blocked(quarantined, item, known[item].revision)
  }

  function Deletion(item: string, revision: string): Entry {
    Entry(Deleted, item, revision, "", "", "", false)
  }

  function Changed(entries: seq<Entry>, known: Inventory, quarantined: map<string, string>): (es: seq<Entry>)
    ensures forall e :: e in es <==> e in entries && NeedsUpsert(e, known, quarantined)
  {
    if entries == [] then []
    else
      var last := entries[|entries| - 1];
      Changed(entries[..|entries| - 1], known, quarantined)
      + if NeedsUpsert(last, known, quarantined) then [last] else []
  }

  /** A plan lists the changed entries in scan order, then exactly the deletions
      that are due, in any order and once each. */
  ghost predicate IsPlan(scan: Scan, known: Inventory, quarantined: map<string, string>, changed: seq<Entry>,
                         deleted: seq<Entry>)
  {
    && changed == Changed(scan.entries, known, quarantined)
    && DistinctItems(deleted)
    && (forall d :: d in deleted ==>
        NeedsDeletion(d.item, scan, known, quarantined) && d == Deletion(d.item, known[d.item].revision))
    && (forall item :: NeedsDeletion(item, scan, known, quarantined) ==>
        Deletion(item, known[item].revision) in deleted)
  }

  method PlanChanged(entries: seq<Entry>, known: Inventory, quarantined: map<string, string>)
    returns (changed: seq<Entry>)
    ensures changed == Changed(entries, known, quarantined)
  {
    changed := [];
    for i := 0 to |entries|
      invariant changed == Changed(entries[..i], known, quarantined)
    {
      var entry := entries[i];
      assert entries[..i + 1][..i] == entries[..i];
      if entry.item in known && known[entry.item].revision == entry.revision {
        continue;  // already known at this revision
      } else if Blocked(quarantined, entry.item, entry.revision) {
        continue;  // already refused at this revision
      }
      changed := changed + [entry];
    }
    assert entries[..|entries|] == entries;
  }

  /** The known items are visited in no particular order. */
  method PlanDeleted(scan: Scan, known: Inventory, quarantined: map<string, string>) returns (deleted: seq<Entry>)
    requires scan.completeRead
    ensures DistinctItems(deleted)
    ensures forall d :: d in deleted ==>
            NeedsDeletion(d.item, scan, known, quarantined) && d == Deletion(d.item, known[d.item].revision)
    ensures forall item :: NeedsDeletion(item, scan, known, quarantined) ==>
            Deletion(item, known[item].revision) in deleted
  {
    deleted := [];
    var left := known.Keys;
    while left != {}
      invariant left <= known.Keys
      invariant DistinctItems(deleted)
      invariant forall d :: d in deleted ==>
                  d.item !in left && NeedsDeletion(d.item, scan, known, quarantined)
                      && d == Deletion(d.item, known[d.item].revision)
      invariant forall item :: item !in left && NeedsDeletion(item, scan, known, quarantined) ==>
                  Deletion(item, known[item].revision) in deleted
    {
      var item :| item in left;
      left := left - {item};
      if item !in scan.seen && !Blocked(quarantined, item, known[item].revision) {
        deleted := deleted + [Deletion(item, known[item].revision)];
      }
    }
  }

  /** An entry is sent exactly when its revision is neither the known one nor the one
      refused before.  A deletion is sent exactly for the known items a complete read
      did not see, unless it was refused at the known revision. */
  ghost predicate SendsDifferences(scan: Scan, known: Inventory, quarantined: map<string, string>,
                                   changed: seq<Entry>, deleted: seq<Entry>)
  {
    && (forall e :: e in changed <==>
          && e in scan.entries
          && (e.item in known ==> known[e.item].revision != e.revision)
          && (e.item in quarantined ==> quarantined[e.item] != e.revision))
    && (forall item :: (exists d :: d in deleted && d.item == item) <==>
          && scan.completeRead && item in known && item !in scan.seen
          && (item in quarantined ==> quarantined[item] != known[item].revision))
    && (forall d :: d in deleted ==> d.operation == Deleted && d.item in known && d.revision == known[d.item].revision)
  }

  lemma PlanSendsDifferences(scan: Scan, known: Inventory, quarantined: map<string, string>, changed: seq<Entry>,
                             deleted: seq<Entry>)
    requires IsPlan(scan, known, quarantined, changed, deleted)
    ensures SendsDifferences(scan, known, quarantined, changed, deleted)
  {
    forall item
      ensures (exists d :: d in deleted && d.item == item) <==> NeedsDeletion(item, scan, known, quarantined)
    {
      if NeedsDeletion(item, scan, known, quarantined) { assert Deletion(item, known[item].revision) in deleted; }
    }
  }

  ghost predicate InOrder(es: seq<Entry>, x: Entry, y: Entry) {
    exists i, j :: 0 <= i < j < |es| && es[i] == x && es[j] == y
  }

  lemma LaterInOrder(es: seq<Entry>, x: Entry, y: Entry, last: Entry)
    requires InOrder(es, x, y) || (x in es && y == last)
    ensures InOrder(es + [last], x, y)
  {
    if InOrder(es, x, y) {
      var i, j :| 0 <= i < j < |es| && es[i] == x && es[j] == y;
      assert (es + [last])[i] == x && (es + [last])[j] == y;
    } else {
      var i :| 0 <= i < |es| && es[i] == x;
      assert (es + [last])[i] == x && (es + [last])[|es|] == y;
    }
  }

  /** The changed entries keep the order of the scan. */
  lemma {:induction false} ChangedInOrder(entries: seq<Entry>, known: Inventory, quarantined: map<string, string>,
                                          x: Entry, y: Entry)
    requires InOrder(entries, x, y)
    requires x in Changed(entries, known, quarantined) && y in Changed(entries, known, quarantined)
    ensures InOrder(Changed(entries, known, quarantined), x, y)
  {
    var front, last := entries[..|entries| - 1], entries[|entries| - 1];
    var i, j :| 0 <= i < j < |entries| && entries[i] == x && entries[j] == y;
    assert front[i] == x && x in front;
    if j < |front| {
      assert front[j] == y && InOrder(front, x, y);
      ChangedInOrder(front, known, quarantined, x, y);
    }
    var kept := Changed(front, known, quarantined);
    if NeedsUpsert(last, known, quarantined) {
      LaterInOrder(kept, x, y, last);
      assert Changed(entries, known, quarantined) == kept + [last];
    } else {
      assert Changed(entries, known, quarantined) == kept + [] == kept;
    }
  }

  method PlanEntries(scan: Scan, known: Inventory, quarantined: map<string, string>)
    returns (changed: seq<Entry>, deleted: seq<Entry>)
    ensures IsPlan(scan, known, quarantined, changed, deleted)
    ensures SendsDifferences(scan, known, quarantined, changed, deleted)
  {
    changed := PlanChanged(scan.entries, known, quarantined);
    deleted := [];
    if scan.completeRead { deleted := PlanDeleted(scan, known, quarantined); }
    PlanSendsDifferences(scan, known, quarantined, changed, deleted);
  }

  method ManifestPayloads(entries: seq<Entry>, completeRead: bool) returns (payloads: seq<Payload>)
    ensures payloads == ChunkPayloads(completeRead, entries, MANIFEST_BATCH_SIZE)
    ensures forall p :: p in payloads ==> p.reliable == completeRead && 1 <= |p.entries| <= 100
  {
    payloads := [];
    var offset := 0;
    while offset < |entries|
      invariant 0 <= offset <= |entries|
      invariant ChunkPayloads(completeRead, entries, MANIFEST_BATCH_SIZE)
             == payloads + ChunkPayloads(completeRead, entries[offset..], MANIFEST_BATCH_SIZE)
    {
      var end := if offset + MANIFEST_BATCH_SIZE <= |entries| then offset + MANIFEST_BATCH_SIZE else |entries|;
      Splitting.ChunkPayloadsStep(completeRead, entries, offset, end, MANIFEST_BATCH_SIZE);
      payloads := payloads + [Payload(completeRead, entries[offset..end])];
      offset := end;
    }
    assert entries[offset..] == [];
  }

  // ---------- the batches one bulk import captures ----------

  /** The longest prefix within the row limit, but at least one batch. */
  ghost predicate IsBoundedPrefix(batches: seq<Batch>, maximumRows: Option<nat>, selected: seq<Batch>) {
    && selected <= batches
    && (maximumRows.None? ==> selected == batches)
    && (maximumRows.Some? ==>
          && (batches != [] ==> selected != [])
          && (|selected| > 1 ==> |EntriesOf(selected)| <= maximumRows.value)
          && (0 < |selected| < |batches| ==> |EntriesOf(batches[..|selected| + 1])| > maximumRows.value))
  }

  lemma {:induction false} EntriesOfPrefix(batches: seq<Batch>, n: nat, m: nat)
    requires n <= m <= |batches|
    ensures |EntriesOf(batches[..n])| <= |EntriesOf(batches[..m])|
  {
    if n < m {
      EntriesOfPrefix(batches, n, m - 1);
      assert batches[..m][..m - 1] == batches[..m - 1];
    }
  }

  method BoundedBulkBatches(batches: seq<Batch>, maximumRows: Option<nat>) returns (selected: seq<Batch>)
    ensures IsBoundedPrefix(batches, maximumRows, selected)
  {
    if maximumRows.None? { return batches; }
    selected := [];
    var rows := 0;
    for i := 0 to |batches|
      invariant selected == batches[..i] && rows == |EntriesOf(selected)|
      invariant rows <= maximumRows.value
    {
      var batchRows := |batches[i].entries|;
      assert batches[..i + 1][..i] == batches[..i];
      if selected != [] && rows + batchRows > maximumRows.value { break; }
      if selected == [] && batchRows > maximumRows.value {
        selected := selected + [batches[i]];
        EntriesOfPrefix(batches, 1, if |batches| > 1 then 2 else 1);
        assert batches[..1] == selected;
        break;
      }
      selected := selected + [batches[i]];
      rows := rows + batchRows;
    }
  }

  // ---------- one synchronization converges ----------

  lemma {:induction false} ChangedIsDistinct(entries: seq<Entry>, known: Inventory, quarantined: map<string, string>)
    requires DistinctItems(entries)
    ensures DistinctItems(Changed(entries, known, quarantined))
  {
    if entries != [] {
      var front, last := entries[..|entries| - 1], entries[|entries| - 1];
      ChangedIsDistinct(front, known, quarantined);
      forall e | e in Changed(front, known, quarantined) ensures e.item != last.item {
        var i :| 0 <= i < |front| && front[i] == e;
      }
    }
  }

  lemma PlanIsDistinct(scan: Scan, known: Inventory, quarantined: map<string, string>, changed: seq<Entry>,
                       deleted: seq<Entry>)
    requires Proper(scan) && IsPlan(scan, known, quarantined, changed, deleted)
    ensures DistinctItems(changed + deleted)
    ensures forall e :: e in changed + deleted ==> e.operation == Upsert || e.operation == Deleted
  {
    ChangedIsDistinct(scan.entries, known, quarantined);
    forall i, j | 0 <= i < |changed| && 0 <= j < |deleted| ensures changed[i].item != deleted[j].item {
      assert changed[i] in changed && deleted[j] in deleted;
    }
  }

  /** What a plan promises for an item once every entry of it is accepted. */
  function Planned(entries: seq<Entry>, known: Inventory, item: string): Option<Occurrence> {
    if entries == [] then Lookup(known, item)
    else if entries[|entries| - 1].item == item then Effect(entries[|entries| - 1])
    else Planned(entries[..|entries| - 1], known, item)
  }

  lemma {:induction false} DeliveredAsPlanned(source: nat, s: Store, ds: seq<Delivery>, entries: seq<Entry>,
                                              item: string)
    requires |ds| == |entries| && forall i :: 0 <= i < |ds| ==> ds[i].0 == entries[i]
    requires forall e :: e in entries ==> e.operation != OtherOperation
    ensures Lookup(DeliverAll(source, s, ds).known, item) == Planned(entries, s.known, item)
  {
    if ds != [] {
      DeliveredAsPlanned(source, s, ds[..|ds| - 1], entries[..|ds| - 1], item);
      assert entries[|ds| - 1] in entries;
    }
  }

  lemma {:induction false} PlannedHit(entries: seq<Entry>, known: Inventory, i: nat)
    requires DistinctItems(entries) && i < |entries|
    ensures Planned(entries, known, entries[i].item) == Effect(entries[i])
  {
    if i < |entries| - 1 {
      PlannedHit(entries[..|entries| - 1], known, i);
    }
  }

  lemma {:induction false} PlannedMiss(entries: seq<Entry>, known: Inventory, item: string)
    requires forall e :: e in entries ==> e.item != item
    ensures Planned(entries, known, item) == Lookup(known, item)
  {
    if entries != [] {
      PlannedMiss(entries[..|entries| - 1], known, item);
    }
  }

  lemma {:induction false} CleanDeliversAll(entries: seq<Entry>, reliable: bool, results: seq<EntryResult>)
    requires Refused(entries, reliable, results) == []
    ensures |Accepted(entries, reliable, results)| == |entries|
    ensures forall i :: 0 <= i < |entries| ==> Accepted(entries, reliable, results)[i].0 == entries[i]
  {
    if entries != [] {
      CleanDeliversAll(entries[..|entries| - 1], reliable, results);
    }
  }

  lemma {:induction false} AcceptedAllEntries(batches: seq<Batch>, responses: seq<Response>)
    requires |batches| == |responses|
    requires forall i :: 0 <= i < |batches| ==> Clean(batches[i], responses[i])
    ensures |AcceptedAll(batches, responses)| == |EntriesOf(batches)|
    ensures forall i :: 0 <= i < |EntriesOf(batches)| ==> AcceptedAll(batches, responses)[i].0 == EntriesOf(batches)[i]
  {
    if batches != [] {
      var n := |batches| - 1;
      AcceptedAllEntries(batches[..n], responses[..n]);
      CleanDeliversAll(batches[n].entries, batches[n].reliable, responses[n].results);
    }
  }

  /** The database right before delivery: the scan's payloads are queued, and the
      split that precedes every delivery is done. */
  function ReadyToDeliver(db: Db, entries: seq<Entry>, completeRead: bool): Db {
    Split(QueueBatches(db, ChunkPayloads(completeRead, entries, MANIFEST_BATCH_SIZE)), MANIFEST_BATCH_SIZE)
  }

  lemma NewRowFits(scan: nat, firstId: nat, entries: seq<Entry>, completeRead: bool, b: Batch)
    requires b in NewBatches(scan, firstId, ChunkPayloads(completeRead, entries, MANIFEST_BATCH_SIZE))
    ensures |b.entries| <= MANIFEST_BATCH_SIZE
  {
    var cs := Chunks(entries, MANIFEST_BATCH_SIZE);
    var i :| 0 <= i < |cs| && b.entries == cs[i];
    assert cs[i] in cs;
  }

  lemma QueuedNeedsNoSplit(db: Db, entries: seq<Entry>, completeRead: bool)
    requires PendingOf(db.outbox) == []
    ensures ReadyToDeliver(db, entries, completeRead)
         == QueueBatches(db, ChunkPayloads(completeRead, entries, MANIFEST_BATCH_SIZE))
  {
    var payloads := ChunkPayloads(completeRead, entries, MANIFEST_BATCH_SIZE);
    var queued := QueueBatches(db, payloads);
    PendingMembers(db.outbox);
    forall b | b in queued.outbox ensures !IsOversized(b, MANIFEST_BATCH_SIZE) {
      if b in db.outbox {
        assert b !in PendingOf(db.outbox);
      } else {
        NewRowFits(db.nextId, db.nextId + 1, entries, completeRead, b);
      }
    }
    Splitting.NoneOversized(queued.outbox, MANIFEST_BATCH_SIZE);
  }

  lemma QueuedRows(db: Db, payloads: seq<Payload>)
    requires PendingOf(db.outbox) == []
    ensures PendingOf(QueueBatches(db, payloads).outbox) == NewBatches(db.nextId, db.nextId + 1, payloads)
  {
    Splitting.PendingAppended(db.outbox, NewBatches(db.nextId, db.nextId + 1, payloads));
  }

  lemma QueuedPayloadsPending(db: Db, payloads: seq<Payload>)
    requires PendingOf(db.outbox) == []
    ensures var q := QueueBatches(db, payloads);
            StoreOf(q) == StoreOf(db) && q.source == db.source && q.outbox == db.outbox + PendingOf(q.outbox)
  {
    QueuedRows(db, payloads);
  }

  lemma QueuedIsPending(db: Db, entries: seq<Entry>, completeRead: bool)
    requires PendingOf(db.outbox) == []
    ensures var ready := ReadyToDeliver(db, entries, completeRead);
            && StoreOf(ready) == StoreOf(db) && ready.source == db.source
            && ready.outbox == db.outbox + PendingOf(ready.outbox)
  {
    QueuedNeedsNoSplit(db, entries, completeRead);
    QueuedPayloadsPending(db, ChunkPayloads(completeRead, entries, MANIFEST_BATCH_SIZE));
  }

  lemma QueuedEntries(db: Db, entries: seq<Entry>, completeRead: bool)
    requires PendingOf(db.outbox) == []
    ensures EntriesOf(PendingOf(ReadyToDeliver(db, entries, completeRead).outbox)) == entries
  {
    QueuedNeedsNoSplit(db, entries, completeRead);
    Splitting.RowsOfPayloads(db.nextId, db.nextId + 1, completeRead, entries, MANIFEST_BATCH_SIZE);
    QueuedPayloads(db, ChunkPayloads(completeRead, entries, MANIFEST_BATCH_SIZE), entries);
  }

  lemma QueuedPayloads(db: Db, payloads: seq<Payload>, entries: seq<Entry>)
    requires PendingOf(db.outbox) == [] && EntriesOf(NewBatches(db.nextId, db.nextId + 1, payloads)) == entries
    ensures EntriesOf(PendingOf(QueueBatches(db, payloads).outbox)) == entries
  {
    QueuedRows(db, payloads);
  }

  lemma {:induction false} SentRowsKeepQuarantine(outbox: seq<Batch>, ids: set<nat>)
    requires forall b :: b in outbox && b.id in ids ==> b.state == Pending
    ensures QuarantineOf(MarkSent(outbox, ids)) == QuarantineOf(outbox)
  {
    if outbox != [] {
      SentRowsKeepQuarantine(outbox[..|outbox| - 1], ids);
      assert MarkSent(outbox, ids)[..|outbox| - 1] == MarkSent(outbox[..|outbox| - 1], ids);
    }
  }

  lemma {:induction false} PendingRowsKeepQuarantine(outbox: seq<Batch>, rows: seq<Batch>)
    requires forall b :: b in rows ==> b.state == Pending
    ensures QuarantineOf(outbox + rows) == QuarantineOf(outbox)
  {
    if rows == [] {
      assert outbox + rows == outbox;
    } else {
      PendingRowsKeepQuarantine(outbox, rows[..|rows| - 1]);
      assert (outbox + rows)[..|outbox + rows| - 1] == outbox + rows[..|rows| - 1];
    }
  }

  lemma {:induction false} SentRowsAreNotPending(outbox: seq<Batch>, ids: set<nat>)
    requires forall b :: b in outbox && b.state == Pending ==> b.id in ids
    ensures PendingOf(MarkSent(outbox, ids)) == []
  {
    if outbox != [] {
      SentRowsAreNotPending(outbox[..|outbox| - 1], ids);
      assert MarkSent(outbox, ids)[..|outbox| - 1] == MarkSent(outbox[..|outbox| - 1], ids);
    }
  }

  /** Delivering every pending row cleanly empties the queue and quarantines nothing. */
  lemma DeliveryDrains(outbox: seq<Batch>, batches: seq<Batch>)
    requires PendingOf(outbox) == []
    requires forall b :: b in batches ==> b.state == Pending
    requires forall b, p :: b in outbox && p in batches ==> b.id != p.id
    ensures PendingOf(MarkSent(outbox + batches, IdsOf(batches))) == []
    ensures QuarantineOf(MarkSent(outbox + batches, IdsOf(batches))) == QuarantineOf(outbox)
  {
    PendingMembers(outbox);
    forall b | b in outbox + batches
      ensures b.state == Pending <==> b.id in IdsOf(batches)
    {
      if b in outbox {
        assert b !in PendingOf(outbox);
      }
    }
    SentRowsAreNotPending(outbox + batches, IdsOf(batches));
    SentRowsKeepQuarantine(outbox + batches, IdsOf(batches));
    PendingRowsKeepQuarantine(outbox, batches);
  }

  /** Every batch gets an answer that refuses nothing. */
  ghost predicate AllClean(batches: seq<Batch>, responses: seq<Response>) {
    |batches| == |responses| && forall i :: 0 <= i < |batches| ==> Clean(batches[i], responses[i])
  }

  ghost predicate Delivered(db: Db, scan: Scan, changed: seq<Entry>, deleted: seq<Entry>, responses: seq<Response>) {
    && PendingOf(db.outbox) == [] && UniqueRows(db.outbox, db.nextId) && Proper(scan)
    && IsPlan(scan, db.known, QuarantineOf(db.outbox), changed, deleted)
    && AllClean(PendingOf(ReadyToDeliver(db, changed + deleted, scan.completeRead).outbox), responses)
  }

  function AfterDelivery(db: Db, scan: Scan, entries: seq<Entry>, responses: seq<Response>): Db
    requires |PendingOf(ReadyToDeliver(db, entries, scan.completeRead).outbox)| == |responses|
  {
    var ready := ReadyToDeliver(db, entries, scan.completeRead);
    AcknowledgeAll(ready, PendingOf(ready.outbox), responses)
  }

  lemma DeliveredQueue(db: Db, scan: Scan, entries: seq<Entry>, responses: seq<Response>)
    requires PendingOf(db.outbox) == [] && UniqueRows(db.outbox, db.nextId)
    requires AllClean(PendingOf(ReadyToDeliver(db, entries, scan.completeRead).outbox), responses)
    ensures var after := AfterDelivery(db, scan, entries, responses);
            PendingOf(after.outbox) == [] && QuarantineOf(after.outbox) == QuarantineOf(db.outbox)
  {
    var ready := ReadyToDeliver(db, entries, scan.completeRead);
    var batches := PendingOf(ready.outbox);
    QueuedIsPending(db, entries, scan.completeRead);
    AcknowledgeAllDelivers(ready, batches, responses);
    FreshRows(db, entries, scan.completeRead);
    PendingMembers(ready.outbox);
    DeliveryDrains(db.outbox, batches);
  }

  lemma FreshRows(db: Db, entries: seq<Entry>, completeRead: bool)
    requires PendingOf(db.outbox) == [] && UniqueRows(db.outbox, db.nextId)
    ensures forall b, p :: b in db.outbox && p in PendingOf(ReadyToDeliver(db, entries, completeRead).outbox) ==>
            b.id != p.id
  {
    var payloads := ChunkPayloads(completeRead, entries, MANIFEST_BATCH_SIZE);
    QueuedNeedsNoSplit(db, entries, completeRead);
    PendingMembers(db.outbox);
    PendingMembers(QueueBatches(db, payloads).outbox);
    forall p | p in PendingOf(ReadyToDeliver(db, entries, completeRead).outbox) ensures p.id >= db.nextId {
      assert p in db.outbox ==> p in PendingOf(db.outbox);
    }
  }

  lemma CleanAcknowledgements(ready: Db, batches: seq<Batch>, responses: seq<Response>, item: string)
    requires AllClean(batches, responses) && forall e :: e in EntriesOf(batches) ==> e.operation != OtherOperation
    ensures Lookup(AcknowledgeAll(ready, batches, responses).known, item)
            == Planned(EntriesOf(batches), ready.known, item)
  {
    AcknowledgeAllDelivers(ready, batches, responses);
    AcceptedAllEntries(batches, responses);
    DeliveredAsPlanned(ready.source, StoreOf(ready), AcceptedAll(batches, responses), EntriesOf(batches), item);
  }

  lemma ReadyFacts(db: Db, entries: seq<Entry>, completeRead: bool)
    requires PendingOf(db.outbox) == []
    ensures var ready := ReadyToDeliver(db, entries, completeRead);
            EntriesOf(PendingOf(ready.outbox)) == entries && ready.known == db.known
  {
    QueuedIsPending(db, entries, completeRead);
    QueuedEntries(db, entries, completeRead);
  }

  lemma DeliveredItem(db: Db, scan: Scan, entries: seq<Entry>, responses: seq<Response>, item: string)
    requires PendingOf(db.outbox) == [] && forall e :: e in entries ==> e.operation != OtherOperation
    requires AllClean(PendingOf(ReadyToDeliver(db, entries, scan.completeRead).outbox), responses)
    ensures Lookup(AfterDelivery(db, scan, entries, responses).known, item) == Planned(entries, db.known, item)
  {
    var ready := ReadyToDeliver(db, entries, scan.completeRead);
    ReadyFacts(db, entries, scan.completeRead);
    CleanAcknowledgements(ready, PendingOf(ready.outbox), responses, item);
  }

  /** After the sync, every scanned item is known at its scanned revision unless that
      revision was refused before; a new revision brings its path, and the same one
      leaves the item as it was. */
  ghost predicate HoldsScanned(scan: Scan, before: Inventory, quarantined: map<string, string>, after: Inventory) {
    forall e :: e in scan.entries ==>
      if e.item in before && before[e.item].revision == e.revision then Lookup(after, e.item) == Some(before[e.item])
      else if e.item in quarantined && quarantined[e.item] == e.revision then
        Lookup(after, e.item) == Lookup(before, e.item)
      else Lookup(after, e.item)
           == Some(Occurrence(e.revision, if e.locator != "" then e.locator else e.fileName))
  }

  /** After the sync, a known item that was not seen is gone exactly when the read was
      complete and its deletion was not refused before; items seen without an entry
      and unknown ones stay as they were. */
  ghost predicate DropsUnseen(scan: Scan, before: Inventory, quarantined: map<string, string>, after: Inventory) {
    && (forall item :: item in before && item !in scan.seen ==>
          if scan.completeRead && !(item in quarantined && quarantined[item] == before[item].revision)
          then item !in after else Lookup(after, item) == Some(before[item]))
    && (forall item :: item in scan.seen && (forall e :: e in scan.entries ==> e.item != item) ==>
          Lookup(after, item) == Lookup(before, item))
    && (forall item :: item !in scan.seen && item !in before ==> item !in after)
  }

  /** One sync converges.  When every queued entry is accepted, the client knows what
      the scan found, forgets what it missed, has nothing left to deliver, and a second
      sync over the same scan has nothing to queue. */
  lemma SyncConverges(db: Db, scan: Scan, changed: seq<Entry>, deleted: seq<Entry>, responses: seq<Response>)
    requires Delivered(db, scan, changed, deleted, responses)
    ensures var after := AfterDelivery(db, scan, changed + deleted, responses);
            var quarantined := QuarantineOf(db.outbox);
            && PendingOf(after.outbox) == []
            && HoldsScanned(scan, db.known, quarantined, after.known)
            && DropsUnseen(scan, db.known, quarantined, after.known)
            && (forall again, gone :: IsPlan(scan, after.known, QuarantineOf(after.outbox), again, gone) ==>
                again == [] && gone == [])
  {
    var after := AfterDelivery(db, scan, changed + deleted, responses);
    var quarantined := QuarantineOf(db.outbox);
    var entries := changed + deleted;
    DeliveredQueue(db, scan, entries, responses);
    PlanIsDistinct(scan, db.known, quarantined, changed, deleted);
    forall item ensures Lookup(after.known, item) == Planned(entries, db.known, item) {
      DeliveredItem(db, scan, entries, responses, item);
    }
    PlannedAsScanned(scan, db.known, quarantined, changed, deleted, after.known);
    forall again, gone | IsPlan(scan, after.known, quarantined, again, gone)
      ensures again == [] && gone == []
    {
      SecondPlanIsEmpty(scan, db.known, after.known, quarantined, again, gone);
    }
  }

  lemma PlannedAsScanned(scan: Scan, before: Inventory, quarantined: map<string, string>, changed: seq<Entry>,
                         deleted: seq<Entry>, after: Inventory)
    requires Proper(scan) && IsPlan(scan, before, quarantined, changed, deleted)
    requires forall item :: Lookup(after, item) == Planned(changed + deleted, before, item)
    ensures HoldsScanned(scan, before, quarantined, after) && DropsUnseen(scan, before, quarantined, after)
  {
    forall e | e in scan.entries
      ensures Lookup(after, e.item) == if NeedsUpsert(e, before, quarantined)
                                       then Some(OccurrenceOf(e)) else Lookup(before, e.item)
    {
      ScannedItem(scan, before, quarantined, changed, deleted, e);
    }
    forall item | item !in scan.seen
      ensures Lookup(after, item) == if NeedsDeletion(item, scan, before, quarantined)
                                     then None else Lookup(before, item)
    {
      UnseenItem(scan, before, quarantined, changed, deleted, item);
    }
    forall item | item in scan.seen && (forall e :: e in scan.entries ==> e.item != item)
      ensures Lookup(after, item) == Lookup(before, item)
    {
      PlannedMiss(changed + deleted, before, item);
    }
  }

  lemma ScannedItem(scan: Scan, before: Inventory, quarantined: map<string, string>, changed: seq<Entry>,
                    deleted: seq<Entry>, e: Entry)
    requires Proper(scan) && e in scan.entries && IsPlan(scan, before, quarantined, changed, deleted)
    ensures Planned(changed + deleted, before, e.item)
         == if NeedsUpsert(e, before, quarantined) then Some(OccurrenceOf(e)) else Lookup(before, e.item)
  {
    PlanIsDistinct(scan, before, quarantined, changed, deleted);
    if NeedsUpsert(e, before, quarantined) {
      var i :| 0 <= i < |changed| && changed[i] == e;
      assert (changed + deleted)[i] == e;
      PlannedHit(changed + deleted, before, i);
    } else {
      forall p | p in changed + deleted ensures p.item != e.item {
        if p in changed {
          assert p in scan.entries && p != e;
        }
      }
      PlannedMiss(changed + deleted, before, e.item);
    }
  }

  lemma UnseenItem(scan: Scan, before: Inventory, quarantined: map<string, string>, changed: seq<Entry>,
                   deleted: seq<Entry>, item: string)
    requires Proper(scan) && item !in scan.seen && IsPlan(scan, before, quarantined, changed, deleted)
    ensures Planned(changed + deleted, before, item)
         == if NeedsDeletion(item, scan, before, quarantined) then None else Lookup(before, item)
  {
    PlanIsDistinct(scan, before, quarantined, changed, deleted);
    if NeedsDeletion(item, scan, before, quarantined) {
      var d := Deletion(item, before[item].revision);
      var i :| 0 <= i < |deleted| && deleted[i] == d;
      assert (changed + deleted)[|changed| + i] == d;
      PlannedHit(changed + deleted, before, |changed| + i);
    } else {
      PlannedMiss(changed + deleted, before, item);
    }
  }

  /** An inventory that a sync over the scan has left is in step with it. */
  lemma SecondPlanIsEmpty(scan: Scan, before: Inventory, after: Inventory, quarantined: map<string, string>,
                          again: seq<Entry>, gone: seq<Entry>)
    requires Proper(scan) && IsPlan(scan, after, quarantined, again, gone)
    requires HoldsScanned(scan, before, quarantined, after) && DropsUnseen(scan, before, quarantined, after)
    ensures again == [] && gone == []
  {
    forall e | e in scan.entries ensures !NeedsUpsert(e, after, quarantined) {
    }
    forall item ensures !NeedsDeletion(item, scan, after, quarantined) {
      if item !in scan.seen && item in before { assert Lookup(after, item).None? || after[item] == before[item]; }
    }
    NoneIn(again);
    NoneIn(gone);
  }

  lemma NoneIn<T>(s: seq<T>)
    requires forall x :: x !in s
    ensures s == []
  {
    if s != [] {
      Member(s);
      assert false;
    }
  }

  lemma Member<T>(s: seq<T>)
    requires s != []
    ensures exists x :: x in s
  {
    assert s[0] in s;
  }
}
