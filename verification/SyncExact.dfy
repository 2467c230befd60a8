/** Runs that only use the batch transport, against a server that keeps its stored
    responses: there the two inventories are equal outside what is still pending. */
module SyncExact {
  import opened Options
  import opened Manifest
  import opened Outbox
  import opened Planning
  import opened SyncProtocol
  import opened SyncTables
  import opened SyncSteps
  import Splitting
  import Permutations
  import SyncTheorems

  /** A key whose request was processed is answered by its stored response: it does
      not expire, and the request is not rejected later. */
  ghost predicate KeepsReplies(w: World, e: Event) {
    && (e.SubmitBatch? ==> !e.expired)
    && (e.SubmitRejected? && PendingOf(w.db.outbox) != [] ==> PendingOf(w.db.outbox)[0].key !in w.server.replies)
  }

  ghost predicate BatchStep(w: World, e: Event) {
    KeepsReplies(w, e) && (e.Choose? ==> e.transport == BatchOnly)
  }

  ghost predicate BatchRun(start: World, events: seq<Event>) {
    forall i :: 0 <= i < |events| ==> BatchStep(Run(start, events[..i]), events[i])
  }

  // ---------- the invariant ----------

  /** The server accepted the entry, and the client may not know it yet. */
  ghost predicate Unheard(s: Server, b: Batch, e: Entry) {
    b.key in s.replies && Accepts(e, b.reliable, ResultFor(s.replies[b.key].results, e.item))
  }

  ghost predicate EntryExact(known: Inventory, s: Server, b: Batch, e: Entry) {
    if Unheard(s, b, e) then Lookup(s.occurrences, e.item) == Effect(e)
    else Lookup(known, e.item) == Lookup(s.occurrences, e.item)
  }

  ghost predicate Untouched(pending: seq<Batch>, item: string) {
    forall e :: e in EntriesOf(pending) ==> e.item != item
  }

  /** Outside the pending entries the inventories are equal; at a pending entry they
      are equal unless the server accepted it. */
  ghost predicate Exact(known: Inventory, s: Server, pending: seq<Batch>) {
    && "" !in known && "" !in s.occurrences
    && DistinctItems(EntriesOf(pending))
    && (forall e :: e in EntriesOf(pending) ==> e.operation != OtherOperation && e.item != "")
    && (forall item :: Untouched(pending, item) ==> Lookup(known, item) == Lookup(s.occurrences, item))
    && (forall b, e :: b in pending && e in b.entries ==> EntryExact(known, s, b, e))
  }

  ghost predicate KeysOk(db: Db, s: Server) {
    && UniqueRows(db.outbox, db.nextId)
    && (forall key :: key in s.replies ==> key.scan < db.nextId)
    && (forall b :: b in PendingOf(db.outbox) && b.key in s.replies ==> !IsOversized(b, MANIFEST_BATCH_SIZE))
  }

  ghost predicate BatchPoint(w: World) {
    var pending := PendingOf(w.db.outbox);
    match w.pc
    case Idle => true
    case Delivering => true
    case Flushing => true
    case Scanning => pending == []
    case Sending => Oversized(w.db.outbox, MANIFEST_BATCH_SIZE) == []
    case Answered(batch, response) =>
      && Oversized(w.db.outbox, MANIFEST_BATCH_SIZE) == [] && pending != [] && batch == pending[0]
      && (response.Some? ==> batch.key in w.server.replies && w.server.replies[batch.key] == response.value)
      && (response.None? ==> batch.key !in w.server.replies)
    case _ => false
  }

  ghost predicate BatchInv(w: World) {
    && w.db.bulks == [] && w.server.imports == []
    && KeysOk(w.db, w.server)
    && Exact(w.db.known, w.server, PendingOf(w.db.outbox))
    && BatchPoint(w)
  }

  // ---------- sequences of pending batches ----------

  lemma HeadSplits(pending: seq<Batch>)
    requires pending != []
    ensures EntriesOf(pending) == pending[0].entries + EntriesOf(pending[1..])
  {
    assert pending == [pending[0]] + pending[1..];
    Splitting.EntriesConcat([pending[0]], pending[1..]);
    assert EntriesOf([pending[0]]) == EntriesOf([]) + pending[0].entries;
  }

  lemma ConcatDistinct(head: seq<Entry>, rest: seq<Entry>)
    requires DistinctItems(head + rest)
    ensures DistinctItems(head) && DistinctItems(rest)
    ensures forall e, f :: e in head && f in rest ==> e.item != f.item
  {
    var all := head + rest;
    forall i, j | 0 <= i < j < |head| ensures head[i].item != head[j].item {
      assert all[i] == head[i] && all[j] == head[j];
    }
    forall i, j | 0 <= i < j < |rest| ensures rest[i].item != rest[j].item {
      assert all[|head| + i] == rest[i] && all[|head| + j] == rest[j];
    }
    forall e, f | e in head && f in rest ensures e.item != f.item {
      var i :| 0 <= i < |head| && head[i] == e;
      var j :| 0 <= j < |rest| && rest[j] == f;
      assert all[i] == e && all[|head| + j] == f;
    }
  }

  /** The entries of the head and of the rest are for different items. */
  lemma HeadIsApart(pending: seq<Batch>)
    requires pending != [] && DistinctItems(EntriesOf(pending))
    ensures DistinctItems(pending[0].entries) && DistinctItems(EntriesOf(pending[1..]))
    ensures forall e, f :: e in pending[0].entries && f in EntriesOf(pending[1..]) ==> e.item != f.item
  {
    HeadSplits(pending);
    ConcatDistinct(pending[0].entries, EntriesOf(pending[1..]));
  }

  lemma BatchEntry(pending: seq<Batch>, b: Batch, e: Entry)
    requires b in pending && e in b.entries
    ensures e in EntriesOf(pending)
  {
    EntriesMembers(pending);
  }

  /** Resolving the head of the pending rows leaves the others pending, in order. */
  lemma {:induction false} HeadResolved(outbox: seq<Batch>, after: seq<Batch>, b: Batch)
    requires |after| == |outbox| && PendingOf(outbox) != [] && b == PendingOf(outbox)[0]
    requires forall i, j :: 0 <= i < j < |outbox| ==> outbox[i].id != outbox[j].id
    requires forall i :: 0 <= i < |outbox| && outbox[i].id != b.id ==> after[i] == outbox[i]
    requires forall i :: 0 <= i < |outbox| && outbox[i].id == b.id ==> after[i].state != Pending
    ensures PendingOf(after) == PendingOf(outbox)[1..]
  {
    var front, last := outbox[..|outbox| - 1], outbox[|outbox| - 1];
    var front', last' := after[..|after| - 1], after[|after| - 1];
    if PendingOf(front) != [] {
      HeadResolved(front, front', b);
      PendingMembers(front);
      assert b in PendingOf(front);
      var i :| 0 <= i < |front| && front[i] == b;
      assert outbox[i].id == b.id;
    } else {
      assert b == last;
      assert forall i :: 0 <= i < |front| ==> outbox[i].id != b.id;
      assert front' == front;
    }
  }

  lemma {:induction false} CountedOnce(a: seq<Entry>, x: Entry)
    requires DistinctItems(a)
    ensures multiset(a)[x] <= 1
  {
    if a != [] {
      var front, last := a[..|a| - 1], a[|a| - 1];
      assert a == front + [last];
      CountedOnce(front, x);
      assert x == last ==> x !in multiset(front);
    }
  }

  lemma PermutationIsDistinct(a: seq<Entry>, b: seq<Entry>)
    requires DistinctItems(a) && multiset(a) == multiset(b)
    ensures DistinctItems(b)
  {
    SameMembers(a, b);
    forall i, j | 0 <= i < j < |b| ensures b[i].item != b[j].item {
      if b[i] == b[j] {
        Permutations.Twice(b, i, j);
        CountedOnce(a, b[i]);
      } else {
        assert b[i] in b && b[j] in b;
        DistinctMembers(a, b[i], b[j]);
      }
    }
  }

  lemma DistinctMembers(a: seq<Entry>, x: Entry, y: Entry)
    requires DistinctItems(a) && x in a && y in a && x != y
    ensures x.item != y.item
  {
    var i :| 0 <= i < |a| && a[i] == x;
    var j :| 0 <= j < |a| && a[j] == y;
    assert if i < j then a[i].item != a[j].item else a[j].item != a[i].item;
  }

  // ---------- queueing and splitting ----------

  lemma QueueExact(w: World, scan: Scan, changed: seq<Entry>, deleted: seq<Entry>)
    requires BatchInv(w) && w.pc == Scanning && Proper(scan)
    requires IsPlan(scan, w.db.known, QuarantineOf(w.db.outbox), changed, deleted)
    ensures var payloads := ChunkPayloads(scan.completeRead, changed + deleted, MANIFEST_BATCH_SIZE);
            BatchInv(World(QueueBatches(w.db, payloads), w.server, Delivering))
  {
    var entries := changed + deleted;
    var payloads := ChunkPayloads(scan.completeRead, entries, MANIFEST_BATCH_SIZE);
    Splitting.RowsOfPayloads(w.db.nextId, w.db.nextId + 1, scan.completeRead, entries, MANIFEST_BATCH_SIZE);
    PlanIsDistinct(scan, w.db.known, QuarantineOf(w.db.outbox), changed, deleted);
    PlanIsNamed(scan, w.db.known, QuarantineOf(w.db.outbox), changed, deleted);
    PayloadsExact(w, payloads);
  }

  lemma PayloadsExact(w: World, payloads: seq<Payload>)
    requires BatchInv(w) && PendingOf(w.db.outbox) == []
    requires var entries := EntriesOf(NewBatches(w.db.nextId, w.db.nextId + 1, payloads));
             DistinctItems(entries) && forall e :: e in entries ==> e.operation != OtherOperation && e.item != ""
    ensures BatchInv(World(QueueBatches(w.db, payloads), w.server, Delivering))
  {
    QueuedKeysOk(w.db, w.server, payloads);
    QueuedExact(w.db, w.server, payloads);
  }

  lemma FreshKeys(nextId: nat, payloads: seq<Payload>, s: Server)
    requires forall key :: key in s.replies ==> key.scan < nextId
    ensures forall b :: b in NewBatches(nextId, nextId + 1, payloads) ==> b.key !in s.replies
  {
    forall b | b in NewBatches(nextId, nextId + 1, payloads) ensures b.key !in s.replies {
      assert b.key.scan == nextId;
    }
  }

  lemma QueuedKeysOk(db: Db, s: Server, payloads: seq<Payload>)
    requires KeysOk(db, s) && PendingOf(db.outbox) == []
    ensures KeysOk(QueueBatches(db, payloads), s)
  {
    QueuedRows(db, payloads);
    NewRowsExtend(db.outbox, db.nextId, payloads);
    FreshKeys(db.nextId, payloads, s);
    UnsentKeysOk(QueueBatches(db, payloads), s, db.nextId, NewBatches(db.nextId, db.nextId + 1, payloads));
  }

  lemma UnsentKeysOk(after: Db, s: Server, nextId: nat, rows: seq<Batch>)
    requires UniqueRows(after.outbox, after.nextId) && nextId <= after.nextId && PendingOf(after.outbox) == rows
    requires forall key :: key in s.replies ==> key.scan < nextId
    requires forall b :: b in rows ==> b.key !in s.replies
    ensures KeysOk(after, s)
  {
  }

  lemma QueuedExact(db: Db, s: Server, payloads: seq<Payload>)
    requires Exact(db.known, s, []) && PendingOf(db.outbox) == []
    requires forall key :: key in s.replies ==> key.scan < db.nextId
    requires var entries := EntriesOf(NewBatches(db.nextId, db.nextId + 1, payloads));
             DistinctItems(entries) && forall e :: e in entries ==> e.operation != OtherOperation && e.item != ""
    ensures Exact(db.known, s, PendingOf(QueueBatches(db, payloads).outbox))
  {
    QueuedRows(db, payloads);
    NewRowsExact(db.known, s, db.nextId, payloads);
  }

  lemma PlanIsNamed(scan: Scan, known: Inventory, quarantined: map<string, string>, changed: seq<Entry>,
                    deleted: seq<Entry>)
    requires Proper(scan) && IsPlan(scan, known, quarantined, changed, deleted) && "" !in known
    ensures forall e :: e in changed + deleted ==> e.item != ""
  {
  }

  /** Rows with a fresh scan identifier were never sent. */
  lemma NewRowsExact(known: Inventory, s: Server, scan: nat, payloads: seq<Payload>)
    requires Exact(known, s, []) && forall key :: key in s.replies ==> key.scan < scan
    requires var entries := EntriesOf(NewBatches(scan, scan + 1, payloads));
             DistinctItems(entries) && forall e :: e in entries ==> e.operation != OtherOperation && e.item != ""
    ensures Exact(known, s, NewBatches(scan, scan + 1, payloads))
  {
    FreshKeys(scan, payloads, s);
    NothingPendingIsEqual(known, s);
  }

  lemma NothingPendingIsEqual(known: Inventory, s: Server)
    requires Exact(known, s, [])
    ensures forall item :: Lookup(known, item) == Lookup(s.occurrences, item)
  {
    forall item ensures Lookup(known, item) == Lookup(s.occurrences, item) {
      assert Untouched([], item);
    }
  }

  /** Pieces of oversized batches, none of which was ever sent. */
  lemma SplitExact(w: World)
    requires BatchInv(w) && w.pc == Flushing
    ensures BatchInv(World(Split(w.db, MANIFEST_BATCH_SIZE), w.server, Sending))
  {
    var size := MANIFEST_BATCH_SIZE;
    var after := Split(w.db, size);
    Splitting.SplitKeepsUnique(w.db, size);
    SplitAddsFreshKeys(w.db, size);
    Splitting.SplitConservesPending(w.db, size);
    PermutationIsDistinct(EntriesOf(PendingOf(w.db.outbox)), EntriesOf(PendingOf(after.outbox)));
    SameMembers(EntriesOf(PendingOf(w.db.outbox)), EntriesOf(PendingOf(after.outbox)));
    SplitEntriesExact(w);
    PendingMembers(after.outbox);
    PendingMembers(w.db.outbox);
    Splitting.SplitTwice(w.db, size);
    forall item | Untouched(PendingOf(after.outbox), item)
      ensures Lookup(after.known, item) == Lookup(w.server.occurrences, item)
    {
      assert Untouched(PendingOf(w.db.outbox), item);
    }
  }

  ghost predicate AllExact(known: Inventory, s: Server, batches: seq<Batch>) {
    forall b, e :: b in batches && e in b.entries ==> EntryExact(known, s, b, e)
  }

  /** The keys in use are older than the rows a split adds. */
  ghost predicate OldKeys(s: Server, nextId: nat) {
    forall key :: key in s.replies ==> key.scan < nextId
  }

  /** The pieces of batches that were never sent. */
  lemma PiecesExact(known: Inventory, s: Server, oversized: seq<Batch>, payloads: seq<Payload>, nextId: nat)
    requires OldKeys(s, nextId)
    requires AllExact(known, s, oversized) && forall o :: o in oversized ==> o.key !in s.replies
    requires EntriesOf(NewBatches(nextId, nextId + 1, payloads)) == EntriesOf(oversized)
    ensures AllExact(known, s, NewBatches(nextId, nextId + 1, payloads))
  {
    var rows := NewBatches(nextId, nextId + 1, payloads);
    FreshKeys(nextId, payloads, s);
    EntriesMembers(oversized);
    forall b, e | b in rows && e in b.entries ensures EntryExact(known, s, b, e) {
      BatchEntry(rows, b, e);
      var o :| o in oversized && e in o.entries;
      assert EntryExact(known, s, o, e);
    }
  }

  lemma OversizedExact(w: World)
    requires BatchInv(w)
    ensures AllExact(w.db.known, w.server, Oversized(w.db.outbox, MANIFEST_BATCH_SIZE))
    ensures forall o :: o in Oversized(w.db.outbox, MANIFEST_BATCH_SIZE) ==> o.key !in w.server.replies
  {
    OversizedMembers(w.db.outbox, MANIFEST_BATCH_SIZE);
    PendingMembers(w.db.outbox);
  }

  lemma JoinExact(known: Inventory, s: Server, a: seq<Batch>, b: seq<Batch>)
    requires AllExact(known, s, a) && AllExact(known, s, b)
    ensures AllExact(known, s, a + b)
  {
  }

  lemma SmallExact(w: World)
    requires BatchInv(w)
    ensures AllExact(w.db.known, w.server, Splitting.Small(w.db.outbox, MANIFEST_BATCH_SIZE))
  {
    Splitting.SmallIsSmall(w.db.outbox, MANIFEST_BATCH_SIZE);
    PendingMembers(w.db.outbox);
  }

  lemma PiecesOfExact(known: Inventory, s: Server, oversized: seq<Batch>, nextId: nat)
    requires OldKeys(s, nextId)
    requires AllExact(known, s, oversized) && forall o :: o in oversized ==> o.key !in s.replies
    ensures AllExact(known, s, NewBatches(nextId, nextId + 1, Pieces(oversized, MANIFEST_BATCH_SIZE)))
  {
    Splitting.PiecesConcatenate(oversized, MANIFEST_BATCH_SIZE, nextId, nextId + 1);
    PiecesExact(known, s, oversized, Pieces(oversized, MANIFEST_BATCH_SIZE), nextId);
  }

  lemma NewPiecesExact(w: World)
    requires BatchInv(w)
    ensures AllExact(w.db.known, w.server,
                     NewBatches(w.db.nextId, w.db.nextId + 1,
                                Pieces(Oversized(w.db.outbox, MANIFEST_BATCH_SIZE), MANIFEST_BATCH_SIZE)))
  {
    OversizedExact(w);
    OldKeysInUse(w);
    PiecesOfExact(w.db.known, w.server, Oversized(w.db.outbox, MANIFEST_BATCH_SIZE), w.db.nextId);
  }

  lemma OldKeysInUse(w: World)
    requires BatchInv(w)
    ensures OldKeys(w.server, w.db.nextId)
  {
  }

  lemma SplitEntriesExact(w: World)
    requires BatchInv(w)
    ensures AllExact(w.db.known, w.server, PendingOf(Split(w.db, MANIFEST_BATCH_SIZE).outbox))
  {
    var oversized := Oversized(w.db.outbox, MANIFEST_BATCH_SIZE);
    if oversized != [] {
      Splitting.PendingAfterSplit(w.db, MANIFEST_BATCH_SIZE);
      SmallExact(w);
      NewPiecesExact(w);
      JoinExact(w.db.known, w.server, Splitting.Small(w.db.outbox, MANIFEST_BATCH_SIZE),
                NewBatches(w.db.nextId, w.db.nextId + 1, Pieces(oversized, MANIFEST_BATCH_SIZE)));
    }
  }

  // ---------- sending a batch ----------

  /** Processing touches only the items of its entries, and an entry the answer
      does not accept leaves its item as it was. */
  lemma {:induction false} ProcessUntouched(occurrences: Inventory, entries: seq<Entry>, reliable: bool, v: Verdict,
                                            item: string)
    requires forall e :: e in entries ==> e.item != item
    ensures Lookup(Process(occurrences, entries, reliable, v).0, item) == Lookup(occurrences, item)
    ensures ResultFor(Process(occurrences, entries, reliable, v).1, item) == None
  {
    if entries != [] {
      var n := |entries| - 1;
      ProcessUntouched(occurrences, entries[..n], reliable, v, item);
      var done := Process(occurrences, entries, reliable, v);
      assert done.1[..|done.1| - 1] == Process(occurrences, entries[..n], reliable, v).1;
      assert entries[n] in entries;
    }
  }

  lemma ResultForSnoc(results: seq<EntryResult>, last: EntryResult, item: string)
    ensures ResultFor(results + [last], item)
            == if last.item != "" && last.item == item then Some(last) else ResultFor(results, item)
  {
    assert (results + [last])[..|results|] == results;
  }

  lemma ProcessSnoc(occurrences: Inventory, entries: seq<Entry>, reliable: bool, v: Verdict)
    requires entries != []
    ensures var n := |entries| - 1;
            var before := Process(occurrences, entries[..n], reliable, v);
            var outcome := Judge(before.0, entries[..n], entries[n], reliable, v);
            Process(occurrences, entries, reliable, v)
            == (Perform(before.0, entries[n], outcome),
                before.1 + [EntryResult(entries[n].item, outcome, false, 0, 0, 0)])
  {
  }

  lemma ProcessRefusedLast(occurrences: Inventory, entries: seq<Entry>, reliable: bool, v: Verdict)
    requires entries != [] && entries[|entries| - 1].item != "" && entries[|entries| - 1].operation != OtherOperation
    requires forall e :: e in entries[..|entries| - 1] ==> e.item != entries[|entries| - 1].item
    ensures var last, done := entries[|entries| - 1], Process(occurrences, entries, reliable, v);
            Accepts(last, reliable, ResultFor(done.1, last.item))
                || Lookup(done.0, last.item) == Lookup(occurrences, last.item)
  {
    var n := |entries| - 1;
    var before := Process(occurrences, entries[..n], reliable, v);
    var outcome := Judge(before.0, entries[..n], entries[n], reliable, v);
    ProcessSnoc(occurrences, entries, reliable, v);
    ProcessUntouched(occurrences, entries[..n], reliable, v, entries[n].item);
    ResultForSnoc(before.1, EntryResult(entries[n].item, outcome, false, 0, 0, 0), entries[n].item);
  }

  /** An entry for another item changes neither the item nor its result. */
  lemma LaterEntry(occurrences: Inventory, entries: seq<Entry>, reliable: bool, v: Verdict, item: string)
    requires entries != [] && entries[|entries| - 1].item != item
    ensures var before, done := Process(occurrences, entries[..|entries| - 1], reliable, v),
                                Process(occurrences, entries, reliable, v);
            Lookup(done.0, item) == Lookup(before.0, item) && ResultFor(done.1, item) == ResultFor(before.1, item)
  {
    var n := |entries| - 1;
    var before := Process(occurrences, entries[..n], reliable, v);
    var outcome := Judge(before.0, entries[..n], entries[n], reliable, v);
    ProcessSnoc(occurrences, entries, reliable, v);
    ResultForSnoc(before.1, EntryResult(entries[n].item, outcome, false, 0, 0, 0), item);
  }

  lemma {:induction false} ProcessRefused(occurrences: Inventory, entries: seq<Entry>, reliable: bool, v: Verdict,
                                          i: nat)
    requires i < |entries| && DistinctItems(entries) && entries[i].item != "" && entries[i].operation != OtherOperation
    ensures var done := Process(occurrences, entries, reliable, v);
            Accepts(entries[i], reliable, ResultFor(done.1, entries[i].item))
            || Lookup(done.0, entries[i].item) == Lookup(occurrences, entries[i].item)
  {
    var n := |entries| - 1;
    if i < n {
      ProcessRefused(occurrences, entries[..n], reliable, v, i);
      assert entries[i].item != entries[n].item;
      LaterEntry(occurrences, entries, reliable, v, entries[i].item);
    } else {
      ProcessRefusedLast(occurrences, entries, reliable, v);
    }
  }

  /** Processing the head keeps the inventories exact once its reply is stored. */
  lemma SubmitExact(known: Inventory, s: Server, pending: seq<Batch>, v: Verdict)
    requires Exact(known, s, pending) && pending != [] && pending[0].key !in s.replies
    requires forall i :: 0 < i < |pending| ==> pending[i].key != pending[0].key
    ensures Exact(known, Submit(s, pending[0], v, false).0, pending)
  {
    var b := pending[0];
    var done := Process(s.occurrences, b.entries, b.reliable, v);
    var s' := Submit(s, b, v, false).0;
    HeadIsApart(pending);
    HeadSplits(pending);
    ProcessUntouched(s.occurrences, b.entries, b.reliable, v, "");
    forall item | Untouched(pending, item) ensures Lookup(known, item) == Lookup(s'.occurrences, item) {
      forall e | e in b.entries ensures e.item != item { assert e in EntriesOf(pending); }
      ProcessUntouched(s.occurrences, b.entries, b.reliable, v, item);
    }
    forall c, e | c in pending && e in c.entries ensures EntryExact(known, s', c, e) {
      assert EntryExact(known, s, c, e);
      var k :| 0 <= k < |pending| && pending[k] == c;
      if k == 0 {
        BatchEntry(pending, b, e);
        SubmittedEntry(known, s, b, v, e);
      } else {
        assert c == pending[1..][k - 1];
        BatchEntry(pending[1..], c, e);
        ProcessUntouched(s.occurrences, b.entries, b.reliable, v, e.item);
      }
    }
  }

  lemma SubmittedEntry(known: Inventory, s: Server, b: Batch, v: Verdict, e: Entry)
    requires b.key !in s.replies && DistinctItems(b.entries)
    requires e in b.entries && e.item != "" && e.operation != OtherOperation
    requires Lookup(known, e.item) == Lookup(s.occurrences, e.item)
    ensures EntryExact(known, Submit(s, b, v, false).0, b, e)
  {
    var i :| 0 <= i < |b.entries| && b.entries[i] == e;
    ProcessRefused(s.occurrences, b.entries, b.reliable, v, i);
    ProcessIsHonest(s.occurrences, b.entries, b.reliable, v, e);
  }

  // ---------- resolving a batch ----------

  /** Taking the answer of the head into account, the rest stays exact. */
  lemma AnswerExact(known: Inventory, s: Server, pending: seq<Batch>, known': Inventory)
    requires Exact(known, s, pending) && pending != [] && "" !in known'
    requires forall item :: (forall e :: e in pending[0].entries ==> e.item != item) ==>
             Lookup(known', item) == Lookup(known, item)
    requires forall e :: e in pending[0].entries ==>
               Lookup(known', e.item) == if Unheard(s, pending[0], e) then Effect(e) else Lookup(known, e.item)
    ensures Exact(known', s, pending[1..])
  {
    var b, rest := pending[0], pending[1..];
    HeadIsApart(pending);
    HeadSplits(pending);
    forall item | Untouched(rest, item) ensures Lookup(known', item) == Lookup(s.occurrences, item) {
      if e :| e in b.entries && e.item == item {
        assert EntryExact(known, s, b, e);
      } else {
        assert Untouched(pending, item);
      }
    }
    forall c, e | c in rest && e in c.entries ensures EntryExact(known', s, c, e) {
      assert c in pending && EntryExact(known, s, c, e);
      BatchEntry(rest, c, e);
    }
  }

  /** What an acknowledgement makes of the client's record of an entry's item. */
  lemma AcknowledgedEntry(db: Db, b: Batch, r: Response, e: Entry)
    requires DistinctItems(b.entries) && e in b.entries && forall f :: f in b.entries ==> f.operation != OtherOperation
    ensures Lookup(Acknowledge(db, b, r).known, e.item)
         == if Accepts(e, b.reliable, ResultFor(r.results, e.item)) then Effect(e) else Lookup(db.known, e.item)
  {
    var ds := Accepted(b.entries, b.reliable, r.results);
    AcceptedOrRefused(b.entries, b.reliable, r.results);
    AcceptedDistinct(b.entries, b.reliable, r.results);
    DeliverAllKnown(db.source, StoreOf(db), ds, e.item);
    if Accepts(e, b.reliable, ResultFor(r.results, e.item)) {
      var i :| 0 <= i < |ds| && ds[i] == (e, ResultFor(r.results, e.item).value);
    } else {
      forall i | 0 <= i < |ds| ensures ds[i].0.item != e.item {
        assert ds[i] in ds;
        if ds[i].0 != e { DistinctMembers(b.entries, ds[i].0, e); }
      }
    }
  }

  lemma AcknowledgedElsewhere(db: Db, b: Batch, r: Response, item: string)
    requires DistinctItems(b.entries) && forall f :: f in b.entries ==> f.operation != OtherOperation && f.item != item
    ensures Lookup(Acknowledge(db, b, r).known, item) == Lookup(db.known, item)
  {
    var ds := Accepted(b.entries, b.reliable, r.results);
    AcceptedOrRefused(b.entries, b.reliable, r.results);
    AcceptedDistinct(b.entries, b.reliable, r.results);
    forall i | 0 <= i < |ds| ensures ds[i].0 in b.entries { assert ds[i] in ds; }
    DeliverAllKnown(db.source, StoreOf(db), ds, item);
  }

  /** What an acknowledged head leaves of the client's record. */
  ghost predicate Heard(db: Db, s: Server, b: Batch, known: Inventory) {
    && (forall item :: (forall e :: e in b.entries ==> e.item != item) ==>
        Lookup(known, item) == Lookup(db.known, item))
    && (forall e :: e in b.entries ==>
          Lookup(known, e.item) == if Unheard(s, b, e) then Effect(e) else Lookup(db.known, e.item))
  }

  lemma AcknowledgedKnown(db: Db, s: Server, b: Batch, r: Response)
    requires DistinctItems(b.entries) && forall e :: e in b.entries ==> e.operation != OtherOperation
    requires b.key in s.replies && s.replies[b.key] == r
    ensures Heard(db, s, b, Acknowledge(db, b, r).known)
  {
    var known := Acknowledge(db, b, r).known;
    forall e | e in b.entries
      ensures Lookup(known, e.item) == if Unheard(s, b, e) then Effect(e) else Lookup(db.known, e.item)
    {
      AcknowledgedEntry(db, b, r, e);
    }
    forall item | forall e :: e in b.entries ==> e.item != item ensures Lookup(known, item) == Lookup(db.known, item) {
      AcknowledgedElsewhere(db, b, r, item);
    }
  }

  lemma AcknowledgeExact(w: World, b: Batch, r: Response)
    requires BatchInv(w) && w.pc == Answered(b, Some(r))
    ensures BatchInv(StepCommit(w))
  {
    AcknowledgedRest(w.db, w.server, b, r);
    ResolvedHead(w.db, w.server, b, Acknowledge(w.db, b, r));
  }

  lemma AcknowledgedRest(db: Db, s: Server, b: Batch, r: Response)
    requires Exact(db.known, s, PendingOf(db.outbox)) && PendingOf(db.outbox) != [] && b == PendingOf(db.outbox)[0]
    requires b.key in s.replies && s.replies[b.key] == r
    ensures Exact(Acknowledge(db, b, r).known, s, PendingOf(db.outbox)[1..])
  {
    var pending, known := PendingOf(db.outbox), Acknowledge(db, b, r).known;
    HeadIsApart(pending);
    HeadSplits(pending);
    AcknowledgedKnown(db, s, b, r);
    assert Lookup(known, "") == Lookup(db.known, "");
    AnswerExact(db.known, s, pending, known);
  }

  lemma RejectExact(w: World, b: Batch)
    requires BatchInv(w) && w.pc == Answered(b, None)
    ensures BatchInv(StepCommit(w))
  {
    AnswerExact(w.db.known, w.server, PendingOf(w.db.outbox), w.db.known);
    PendingMembers(w.db.outbox);
    UniqueById(w.db.outbox, w.db.nextId, b);
    ResolvedHead(w.db, w.server, b, RejectRequest(w.db, b));
  }

  lemma ResolvedHead(db: Db, s: Server, b: Batch, after: Db)
    requires KeysOk(db, s) && Oversized(db.outbox, MANIFEST_BATCH_SIZE) == []
    requires PendingOf(db.outbox) != [] && b == PendingOf(db.outbox)[0]
    requires |after.outbox| == |db.outbox| && after.nextId == db.nextId
    requires forall i :: 0 <= i < |db.outbox| ==> SameRow(db.outbox[i], after.outbox[i])
    requires forall i :: 0 <= i < |db.outbox| && db.outbox[i].id != b.id ==> after.outbox[i] == db.outbox[i]
    requires forall i :: 0 <= i < |db.outbox| && db.outbox[i].id == b.id ==> after.outbox[i].state != Pending
    ensures PendingOf(after.outbox) == PendingOf(db.outbox)[1..]
    ensures KeysOk(after, s) && Oversized(after.outbox, MANIFEST_BATCH_SIZE) == []
  {
    HeadResolved(db.outbox, after.outbox, b);
    SameRowsKeepUnique(db.outbox, after.outbox, db.nextId);
    OversizedMembers(db.outbox, MANIFEST_BATCH_SIZE);
    forall c | c in after.outbox ensures !IsOversized(c, MANIFEST_BATCH_SIZE) {
      var i :| 0 <= i < |after.outbox| && after.outbox[i] == c;
      assert db.outbox[i] in db.outbox;
      assert db.outbox[i] !in Oversized(db.outbox, MANIFEST_BATCH_SIZE);
    }
    Splitting.NoneOversized(after.outbox, MANIFEST_BATCH_SIZE);
  }

  // ---------- every step, every run ----------

  lemma SubmitBatchExact(w: World, e: Event)
    requires BatchInv(w) && w.pc == Sending && e.SubmitBatch? && !e.expired
    ensures BatchInv(StepSubmit(w, e.lost, e.verdict, e.expired))
  {
    var pending := PendingOf(w.db.outbox);
    if pending != [] && pending[0].key !in w.server.replies {
      PendingDistinctKeys(w.db.outbox);
      SubmitExact(w.db.known, w.server, pending, e.verdict);
      PendingMembers(w.db.outbox);
      OversizedMembers(w.db.outbox, MANIFEST_BATCH_SIZE);
      assert pending[0] in w.db.outbox;
      forall b | b in pending ensures !IsOversized(b, MANIFEST_BATCH_SIZE) {
        assert b !in Oversized(w.db.outbox, MANIFEST_BATCH_SIZE);
      }
    }
  }

  lemma {:induction false} PendingDistinctKeys(outbox: seq<Batch>)
    requires forall i, j :: 0 <= i < j < |outbox| ==> outbox[i].key != outbox[j].key
    ensures forall i, j :: 0 <= i < j < |PendingOf(outbox)| ==> PendingOf(outbox)[i].key != PendingOf(outbox)[j].key
  {
    if outbox != [] {
      var front, last := outbox[..|outbox| - 1], outbox[|outbox| - 1];
      PendingDistinctKeys(front);
      PendingMembers(front);
      forall b | b in PendingOf(front) ensures b.key != last.key {
        var i :| 0 <= i < |front| && front[i] == b;
        assert outbox[i] == b;
      }
    }
  }

  lemma OpeningStepExact(w: World, e: Event)
    requires BatchInv(w) && BatchStep(w, e) && !e.SplitBatches? && !e.SubmitBatch? && !e.Commit?
    ensures BatchInv(Step(w, e))
  {
    if e.QueueScan? {
      QueueStepExact(w, e.scan, e.changed, e.deleted);
    } else if e.Choose? {
      ChooseExact(w, e);
    } else {
      QuietStepExact(w, e);
    }
  }

  lemma QueueStepExact(w: World, scan: Scan, changed: seq<Entry>, deleted: seq<Entry>)
    requires BatchInv(w)
    ensures BatchInv(Step(w, QueueScan(scan, changed, deleted)))
  {
    if w.pc == Scanning && Proper(scan) && IsPlan(scan, w.db.known, QuarantineOf(w.db.outbox), changed, deleted) {
      QueueExact(w, scan, changed, deleted);
    }
  }

  lemma ChooseExact(w: World, e: Event)
    requires BatchInv(w) && e.Choose? && e.transport == BatchOnly
    ensures BatchInv(Step(w, e))
  {
    assert Step(w, e) == w || (w.pc == Delivering && Step(w, e) == StepChoose(w, e));
  }

  lemma QuietStepExact(w: World, e: Event)
    requires BatchInv(w) && BatchStep(w, e)
    requires !e.QueueScan? && !e.Choose? && !e.SplitBatches? && !e.SubmitBatch? && !e.Commit?
    ensures BatchInv(Step(w, e))
  {
  }

  lemma CommitExact(w: World)
    requires BatchInv(w)
    ensures BatchInv(StepCommit(w))
  {
    if w.pc.Answered? {
      if w.pc.response.Some? {
        AcknowledgeExact(w, w.pc.batch, w.pc.response.value);
      } else {
        RejectExact(w, w.pc.batch);
      }
    } else {
      assert StepCommit(w) == w;
    }
  }

  lemma BatchStepExact(w: World, e: Event)
    requires BatchInv(w) && BatchStep(w, e)
    ensures BatchInv(Step(w, e))
  {
    var after := Step(w, e);
    match e
    case SplitBatches =>
      assert after == if w.pc == Flushing then World(Split(w.db, MANIFEST_BATCH_SIZE), w.server, Sending) else w;
      if w.pc == Flushing { SplitExact(w); }
    case SubmitBatch(lost, verdict, expired) =>
      assert after == StepSubmit(w, lost, verdict, expired);
      if w.pc == Sending { SubmitBatchExact(w, e); }
    case Commit =>
      assert after == StepCommit(w);
      CommitExact(w);
    case _ => OpeningStepExact(w, e);
  }

  lemma FreshIsExact(w: World)
    requires Fresh(w)
    ensures BatchInv(w)
  {
    forall b, e | b in PendingOf(w.db.outbox) && e in b.entries ensures EntryExact(w.db.known, w.server, b, e) {}
  }

  lemma ShorterBatchRun(start: World, events: seq<Event>)
    requires BatchRun(start, events) && events != []
    ensures BatchRun(start, events[..|events| - 1])
  {
    var front := events[..|events| - 1];
    forall i | 0 <= i < |front| ensures BatchStep(Run(start, front[..i]), front[i]) {
      assert front[..i] == events[..i];
      assert BatchStep(Run(start, events[..i]), events[i]);
    }
  }

  lemma {:induction false} BatchRunKeeps(start: World, events: seq<Event>)
    requires Fresh(start) && BatchRun(start, events)
    ensures BatchInv(Run(start, events))
  {
    if events == [] {
      FreshIsExact(start);
    } else {
      var n := |events| - 1;
      ShorterBatchRun(start, events);
      BatchRunKeeps(start, events[..n]);
      assert BatchStep(Run(start, events[..n]), events[n]);
      BatchStepExact(Run(start, events[..n]), events[n]);
    }
  }

  /** Whenever nothing is pending, the client's record of the server equals the
      server's inventory, whatever was refused on the way. */
  lemma DrainedIsExact(start: World, events: seq<Event>)
    requires Fresh(start) && BatchRun(start, events) && PendingOf(Run(start, events).db.outbox) == []
    ensures Run(start, events).db.known == Run(start, events).server.occurrences
  {
    var w := Run(start, events);
    BatchRunKeeps(start, events);
    NothingPendingIsEqual(w.db.known, w.server);
    SyncTheorems.EqualLookups(w.db.known, w.server.occurrences);
  }

  /** In between, the two differ only where a pending entry was accepted and its
      answer was not heard. */
  lemma DifferenceIsPending(start: World, events: seq<Event>, item: string)
    requires Fresh(start) && BatchRun(start, events)
    requires var w := Run(start, events); Lookup(w.db.known, item) != Lookup(w.server.occurrences, item)
    ensures var w := Run(start, events);
            exists b, e :: b in w.db.outbox && b.state == Pending && e in b.entries && e.item == item
                           && Unheard(w.server, b, e) && Lookup(w.server.occurrences, item) == Effect(e)
  {
    var w := Run(start, events);
    BatchRunKeeps(start, events);
    var pending := PendingOf(w.db.outbox);
    assert !Untouched(pending, item);
    var e :| e in EntriesOf(pending) && e.item == item;
    EntriesMembers(pending);
    var b :| b in pending && e in b.entries;
    assert EntryExact(w.db.known, w.server, b, e);
    PendingMembers(w.db.outbox);
  }
}
