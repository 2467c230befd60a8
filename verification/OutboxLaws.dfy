/** What the short transactions on batches and bulk items mean to their callers: which
    work stays pending, which later transactions are refused, and which are open. */
module OutboxLaws {
  import opened Options
  import opened Manifest
  import opened Outbox
  import opened BulkRefinement
  import Splitting

  // ---------- rows that leave the pending state ----------

  /** The batches whose identifiers are not in a set. */
  function Without(batches: seq<Batch>, ids: set<nat>): seq<Batch> {
    if batches == [] then []
    else
      var last := batches[|batches| - 1];
      Without(batches[..|batches| - 1], ids) + if last.id in ids then [] else [last]
  }

  lemma WithoutSnoc(batches: seq<Batch>, b: Batch, ids: set<nat>)
    ensures Without(batches + [b], ids) == if b.id in ids then Without(batches, ids) else Without(batches, ids) + [b]
  {
    assert Without(batches, ids) + [] == Without(batches, ids);
    assert (batches + [b])[..|batches|] == batches;
  }

  lemma PendingSnoc(outbox: seq<Batch>, b: Batch)
    ensures PendingOf(outbox + [b]) == if b.state == Pending then PendingOf(outbox) + [b] else PendingOf(outbox)
  {
    assert PendingOf(outbox) + [] == PendingOf(outbox);
    assert (outbox + [b])[..|outbox|] == outbox;
  }

  /** Exactly the pending rows with these identifiers leave the pending state. */
  ghost predicate Leaves(outbox: seq<Batch>, after: seq<Batch>, ids: set<nat>) {
    && |after| == |outbox|
    && forall i :: 0 <= i < |outbox| ==>
         if outbox[i].state == Pending && outbox[i].id in ids then after[i].state != Pending else after[i] == outbox[i]
  }

  lemma {:induction false} PendingRest(outbox: seq<Batch>, after: seq<Batch>, ids: set<nat>)
    requires Leaves(outbox, after, ids)
    ensures PendingOf(after) == Without(PendingOf(outbox), ids)
  {
    if outbox != [] {
      var n := |outbox| - 1;
      PendingRest(outbox[..n], after[..n], ids);
      assert outbox == outbox[..n] + [outbox[n]] && after == after[..n] + [after[n]];
      PendingSnoc(outbox[..n], outbox[n]);
      PendingSnoc(after[..n], after[n]);
      if outbox[n].state == Pending { WithoutSnoc(PendingOf(outbox[..n]), outbox[n], ids); }
    }
  }

  lemma {:induction false} WithoutNone(batches: seq<Batch>, ids: set<nat>)
    requires forall b :: b in batches ==> b.id !in ids
    ensures Without(batches, ids) == batches
  {
    if batches != [] {
      var front, last := batches[..|batches| - 1], batches[|batches| - 1];
      assert batches == front + [last];
      WithoutNone(front, ids);
    }
  }

  ghost predicate DistinctIds(batches: seq<Batch>) {
    forall i, j :: 0 <= i < j < |batches| ==> batches[i].id != batches[j].id
  }

  lemma {:induction false} PendingDistinct(outbox: seq<Batch>)
    requires DistinctIds(outbox)
    ensures DistinctIds(PendingOf(outbox))
  {
    if outbox != [] {
      var n := |outbox| - 1;
      PendingDistinct(outbox[..n]);
      PendingMembers(outbox[..n]);
      forall b | b in PendingOf(outbox[..n]) ensures b.id != outbox[n].id {
        var i :| 0 <= i < n && outbox[i] == b;
      }
    }
  }

  lemma LastIsAlone(front: seq<Batch>, b: Batch)
    requires DistinctIds(front + [b])
    ensures DistinctIds(front) && Without(front, {b.id}) == front
  {
    forall i, j | 0 <= i < j < |front| ensures front[i].id != front[j].id {
      assert (front + [b])[i] == front[i] && (front + [b])[j] == front[j];
    }
    forall c | c in front ensures c.id !in {b.id} {
      var i :| 0 <= i < |front| && front[i] == c;
      assert (front + [b])[i] == c && (front + [b])[|front|] == b;
    }
    WithoutNone(front, {b.id});
  }

  /** Taking one batch out takes exactly its entries out. */
  lemma {:induction false} EntriesWithout(batches: seq<Batch>, b: Batch)
    requires DistinctIds(batches) && b in batches
    ensures multiset(EntriesOf(batches)) == multiset(EntriesOf(Without(batches, {b.id}))) + multiset(b.entries)
  {
    var front, last := batches[..|batches| - 1], batches[|batches| - 1];
    assert batches == front + [last];
    WithoutSnoc(front, last, {b.id});
    Splitting.EntriesLast(front, last);
    LastIsAlone(front, last);
    if b != last {
      var i :| 0 <= i < |batches| && batches[i] == b;
      assert front[i] == b;
      EntriesWithout(front, b);
      Splitting.EntriesLast(Without(front, {b.id}), last);
    }
  }

  // ---------- a request that is rejected for good ----------

  lemma {:induction false} NotedItem(blocked: map<string, string>, failures: seq<Entry>, e: Entry)
    requires e in failures && e.item != "" && e.revision != ""
    ensures e.item in NoteFailures(blocked, failures)
  {
    var front, last := failures[..|failures| - 1], failures[|failures| - 1];
    assert failures == front + [last];
    if e in front { NotedItem(blocked, front, e); }
  }

  lemma {:induction false} NotesKeep(blocked: map<string, string>, failures: seq<Entry>, item: string)
    requires item in blocked
    ensures item in NoteFailures(blocked, failures)
  {
    if failures != [] { NotesKeep(blocked, failures[..|failures| - 1], item); }
  }

  lemma {:induction false} FailedIsQuarantined(outbox: seq<Batch>, i: nat, e: Entry)
    requires i < |outbox| && outbox[i].state == Failed && e in outbox[i].failures && e.item != "" && e.revision != ""
    ensures e.item in QuarantineOf(outbox)
  {
    var n := |outbox| - 1;
    if i < n {
      FailedIsQuarantined(outbox[..n], i, e);
      NotesKeep(QuarantineOf(outbox[..n]), outbox[n].failures, e.item);
    } else {
      NotedItem(QuarantineOf(outbox[..n]), outbox[n].failures, e);
    }
  }

  /** A named failure of a failed row, with no later named failure for its item. */
  ghost predicate LatestFailure(outbox: seq<Batch>, p: nat, k: nat) {
    && p < |outbox| && outbox[p].state == Failed && k < |outbox[p].failures|
    && outbox[p].failures[k].item != "" && outbox[p].failures[k].revision != ""
    && NoneLater(outbox[p].failures[k + 1..], outbox[p].failures[k].item)
    && NoneInRows(outbox[p + 1..], outbox[p].failures[k].item)
  }

  ghost predicate NoneInRows(rows: seq<Batch>, item: string) {
    forall q :: 0 <= q < |rows| && rows[q].state == Failed ==> NoneLater(rows[q].failures, item)
  }

  ghost predicate NoneLater(failures: seq<Entry>, item: string) {
    forall f :: f in failures && f.item == item ==> f.revision == ""
  }

  lemma {:induction false} NotesLatest(blocked: map<string, string>, failures: seq<Entry>, k: nat)
    requires k < |failures| && failures[k].item != "" && failures[k].revision != ""
    requires NoneLater(failures[k + 1..], failures[k].item)
    ensures var notes := NoteFailures(blocked, failures);
            failures[k].item in notes && notes[failures[k].item] == failures[k].revision
  {
    var n := |failures| - 1;
    if k < n {
      assert failures[k + 1..] == failures[..n][k + 1..] + [failures[n]];
      NotesLatest(blocked, failures[..n], k);
    }
  }

  lemma {:induction false} NotesNothing(blocked: map<string, string>, failures: seq<Entry>, item: string)
    requires NoneLater(failures, item)
    ensures var notes := NoteFailures(blocked, failures);
            (item in notes <==> item in blocked) && (item in blocked ==> notes[item] == blocked[item])
  {
    if failures != [] {
      var front, last := failures[..|failures| - 1], failures[|failures| - 1];
      assert failures == front + [last];
      NotesNothing(blocked, front, item);
    }
  }

  /** The quarantined revision of an item is the one of its latest named failure. */
  lemma {:induction false} QuarantineIsLatest(outbox: seq<Batch>, p: nat, k: nat)
    requires LatestFailure(outbox, p, k)
    ensures var e := outbox[p].failures[k];
            e.item in QuarantineOf(outbox) && QuarantineOf(outbox)[e.item] == e.revision
  {
    var n := |outbox| - 1;
    if p < n {
      assert outbox[p + 1..] == outbox[..n][p + 1..] + [outbox[n]];
      LaterRows(outbox[..n][p + 1..], outbox[n], outbox[p].failures[k].item);
      QuarantineIsLatest(outbox[..n], p, k);
      if outbox[n].state == Failed {
        NotesNothing(QuarantineOf(outbox[..n]), outbox[n].failures, outbox[p].failures[k].item);
      }
    } else {
      NotesLatest(QuarantineOf(outbox[..n]), outbox[n].failures, k);
    }
  }

  lemma {:induction false} LatestNote(failures: seq<Entry>, item: string) returns (k: nat)
    requires item != "" && !NoneLater(failures, item)
    ensures k < |failures| && failures[k].item == item && failures[k].revision != ""
    ensures NoneLater(failures[k + 1..], item)
  {
    var n := |failures| - 1;
    if failures[n].item == item && failures[n].revision != "" {
      k := n;
    } else {
      assert failures == failures[..n] + [failures[n]];
      k := LatestNote(failures[..n], item);
      assert failures[k + 1..] == failures[..n][k + 1..] + [failures[n]];
    }
  }

  /** Only items with a named failure are quarantined. */
  lemma {:induction false} QuarantinedHasFailure(outbox: seq<Batch>, item: string) returns (p: nat, k: nat)
    requires item in QuarantineOf(outbox)
    ensures LatestFailure(outbox, p, k) && outbox[p].failures[k].item == item
  {
    var n := |outbox| - 1;
    var before := QuarantineOf(outbox[..n]);
    if outbox[n].state == Failed && item != "" && !NoneLater(outbox[n].failures, item) {
      p := n;
      k := LatestNote(outbox[n].failures, item);
    } else {
      if outbox[n].state == Failed {
        NamelessIsFree(before, outbox[n].failures);
        if item != "" { NotesNothing(before, outbox[n].failures, item); }
      }
      p, k := QuarantinedHasFailure(outbox[..n], item);
      assert outbox[p + 1..] == outbox[..n][p + 1..] + [outbox[n]];
      LaterRows(outbox[..n][p + 1..], outbox[n], item);
    }
  }

  lemma LaterRows(rows: seq<Batch>, row: Batch, item: string)
    ensures NoneInRows(rows + [row], item)
       <==> NoneInRows(rows, item) && (row.state == Failed ==> NoneLater(row.failures, item))
  {
    if NoneInRows(rows + [row], item) {
      assert (rows + [row])[|rows|] == row;
      forall q | 0 <= q < |rows| && rows[q].state == Failed ensures NoneLater(rows[q].failures, item) {
        assert (rows + [row])[q] == rows[q];
      }
    }
  }

  lemma {:induction false} NamelessIsFree(blocked: map<string, string>, failures: seq<Entry>)
    ensures "" in NoteFailures(blocked, failures) ==> "" in blocked
  {
    if failures != [] { NamelessIsFree(blocked, failures[..|failures| - 1]); }
  }

  lemma RejectedRows(outbox: seq<Batch>, nextId: nat, b: Batch)
    requires UniqueRows(outbox, nextId) && b in outbox && b.state == Pending
    ensures Leaves(outbox, FailPending(outbox, b.id, b.entries), {b.id})
    ensures b in PendingOf(outbox) && DistinctIds(PendingOf(outbox))
  {
    PendingMembers(outbox);
    PendingDistinct(outbox);
  }

  lemma RejectedIsQuarantined(outbox: seq<Batch>, nextId: nat, b: Batch, e: Entry)
    requires UniqueRows(outbox, nextId) && b in outbox && b.state == Pending
    requires e in b.entries && e.item != "" && e.revision != ""
    ensures e.item in QuarantineOf(FailPending(outbox, b.id, b.entries))
  {
    var i :| 0 <= i < |outbox| && outbox[i] == b;
    FailedIsQuarantined(FailPending(outbox, b.id, b.entries), i, e);
  }

  /** Rejecting a pending batch conserves the work: what was pending is what is still
      pending, in order, and the entries of the batch, every named one of which is now
      quarantined.  The known occurrences, the descriptions and the bulk items stay,
      and a repeated rejection changes nothing. */
  lemma RejectionConserves(db: Db, b: Batch)
    requires UniqueRows(db.outbox, db.nextId) && b in db.outbox && b.state == Pending
    ensures var after := RejectRequest(db, b);
            && PendingOf(after.outbox) == Without(PendingOf(db.outbox), {b.id})
            && multiset(EntriesOf(PendingOf(db.outbox)))
               == multiset(EntriesOf(PendingOf(after.outbox))) + multiset(b.entries)
            && (forall e :: e in b.entries && e.item != "" && e.revision != "" ==> e.item in QuarantineOf(after.outbox))
            && after.known == db.known && after.desc == db.desc && after.bulks == db.bulks
            && RejectRequest(after, b) == after
  {
    var after := RejectRequest(db, b);
    RejectedRows(db.outbox, db.nextId, b);
    PendingRest(db.outbox, after.outbox, {b.id});
    EntriesWithout(PendingOf(db.outbox), b);
    forall e | e in b.entries && e.item != "" && e.revision != "" ensures e.item in QuarantineOf(after.outbox) {
      RejectedIsQuarantined(db.outbox, db.nextId, b, e);
    }
    RejectedTwice(db.outbox, b);
  }

  lemma RejectedTwice(outbox: seq<Batch>, b: Batch)
    ensures var after := FailPending(outbox, b.id, b.entries);
            FailPending(after, b.id, b.entries) == after
  {
  }

  // ---------- what a page of a result is accepted for ----------

  /** A row at its place: it needs no upload and has an outcome of an import; a rejected
      one names its item or is a placeholder, any other one an upsert of a named item. */
  ghost predicate RowFits(row: Row, number: int, entryCount: nat) {
    && row.number == number && number <= entryCount && !row.result.uploadRequired
    && if row.result.outcome == Rejected then
         row.result.item == row.entry.item || "__invalid_row__:" <= row.result.item
       else
         && row.result.outcome in {CreatedOccurrence, UpdatedOccurrence, DuplicateLinked, Unchanged}
         && row.result.item == row.entry.item != "" && row.entry.operation == Upsert
         && row.entry.revision != "" && row.entry.fileName != ""
  }

  lemma {:induction false} RowsFit(rows: seq<Row>, cursor: nat, entryCount: nat)
    ensures FirstError(rows, cursor, entryCount) == None
       <==> forall k :: 0 <= k < |rows| ==> RowFits(rows[k], cursor + 1 + k, entryCount)
  {
    if rows != [] {
      var n := |rows| - 1;
      RowsFit(rows[..n], cursor, entryCount);
      assert RowError(rows[n], cursor + |rows|, entryCount) == None <==> RowFits(rows[n], cursor + 1 + n, entryCount);
      assert forall k :: 0 <= k < n ==> rows[..n][k] == rows[k];
    }
  }

  ghost predicate DistinctRows(rows: seq<Row>) {
    forall i, j :: 0 <= i < j < |rows| ==> rows[i].entry.item != rows[j].entry.item
  }

  /** What an applied row leaves at its item. */
  function RowLeaves(known: Inventory, row: Row): Option<Occurrence> {
    if row.result.outcome == Rejected then Lookup(known, row.entry.item)
    else Some(Occurrence(row.entry.revision, if row.entry.locator != "" then row.entry.locator else row.entry.fileName))
  }

  lemma {:induction false} RowTakesEffect(source: nat, s: Store, rows: seq<Row>, k: nat)
    requires DistinctRows(rows) && k < |rows|
    requires rows[k].result.outcome != Rejected ==> rows[k].entry.operation == Upsert
    ensures Lookup(DeliverAll(source, s, Deliveries(rows)).known, rows[k].entry.item) == RowLeaves(s.known, rows[k])
  {
    var n := |rows| - 1;
    LastRow(source, s, rows[..n], rows[n]);
    assert rows == rows[..n] + [rows[n]];
    if k < n {
      assert rows[..n][k] == rows[k];
      RowTakesEffect(source, s, rows[..n], k);
    } else {
      RowElsewhere(source, s, rows[..n], rows[n].entry.item);
    }
  }

  lemma LastRow(source: nat, s: Store, front: seq<Row>, row: Row)
    ensures DeliverAll(source, s, Deliveries(front + [row]))
         == if row.result.outcome == Rejected then DeliverAll(source, s, Deliveries(front))
            else Deliver(source, DeliverAll(source, s, Deliveries(front)), (row.entry, row.result))
  {
    DeliveriesSnoc(front, row);
  }

  lemma DeliveriesSnoc(front: seq<Row>, row: Row)
    ensures Deliveries(front + [row])
         == if row.result.outcome == Rejected then Deliveries(front) else Deliveries(front) + [(row.entry, row.result)]
  {
    assert (front + [row])[..|front|] == front;
    assert Deliveries(front) + [] == Deliveries(front);
  }

  lemma {:induction false} RowElsewhere(source: nat, s: Store, rows: seq<Row>, item: string)
    requires forall k :: 0 <= k < |rows| ==> rows[k].entry.item != item
    ensures Lookup(DeliverAll(source, s, Deliveries(rows)).known, item) == Lookup(s.known, item)
  {
    if rows != [] {
      var n := |rows| - 1;
      assert rows == rows[..n] + [rows[n]];
      DeliveriesSnoc(rows[..n], rows[n]);
      RowElsewhere(source, s, rows[..n], item);
    }
  }

  /** A page is applied exactly when the item is open for pages and every row fits its
      place after the cursor; then each accepted row takes effect, nothing else the
      client knows changes, and the cursor moves by the size of the page. */
  lemma PageAppliesExactly(db: Db, id: nat, i: nat, rows: seq<Row>)
    requires FindBulk(db.bulks, id) == Some(i)
    ensures var item := db.bulks[i];
            var r := ApplyRows(db, id, rows);
            && (r.Success? <==>
                  && rows != [] && item.state in {ResultReady, ApplyingResult}
                  && forall k :: 0 <= k < |rows| ==>
                       RowFits(rows[k], item.appliedThrough + 1 + k, item.artifact.entryCount))
            && (r.Success? ==>
                  && r.value.1 == r.value.0.bulks[i].appliedThrough == item.appliedThrough + |rows|
                  && r.value.0.outbox == db.outbox)
            && (r.Success? && DistinctRows(rows) ==>
                  && (forall k :: 0 <= k < |rows| ==>
                        Lookup(r.value.0.known, rows[k].entry.item)
                        == RowLeaves(db.known, rows[k]))
                  && forall name :: (forall k :: 0 <= k < |rows| ==> rows[k].entry.item != name) ==>
                       Lookup(r.value.0.known, name) == Lookup(db.known, name))
  {
    var item := db.bulks[i];
    RowsFit(rows, item.appliedThrough, item.artifact.entryCount);
    if ApplyRows(db, id, rows).Success? && DistinctRows(rows) { PageTakesEffect(db, rows, item); }
  }

  lemma PageTakesEffect(db: Db, rows: seq<Row>, item: BulkItem)
    requires DistinctRows(rows)
    requires forall k :: 0 <= k < |rows| ==> RowFits(rows[k], item.appliedThrough + 1 + k, item.artifact.entryCount)
    ensures var known := DeliverAll(db.source, StoreOf(db), Deliveries(rows)).known;
            && (forall k :: 0 <= k < |rows| ==>
                  Lookup(known, rows[k].entry.item) == RowLeaves(db.known, rows[k]))
            && forall name :: (forall k :: 0 <= k < |rows| ==> rows[k].entry.item != name) ==>
                 Lookup(known, name) == Lookup(db.known, name)
  {
    var known := DeliverAll(db.source, StoreOf(db), Deliveries(rows)).known;
    forall k | 0 <= k < |rows|
      ensures Lookup(known, rows[k].entry.item) == RowLeaves(db.known, rows[k])
    {
      RowTakesEffect(db.source, StoreOf(db), rows, k);
    }
    forall name | forall k :: 0 <= k < |rows| ==> rows[k].entry.item != name
      ensures Lookup(known, name) == Lookup(db.known, name)
    {
      RowElsewhere(db.source, StoreOf(db), rows, name);
    }
  }

  // ---------- one transaction on a bulk item ----------

  /** What a transaction on an item leaves alone. */
  ghost predicate Frame(db: Db, after: Db, i: nat)
    requires i < |db.bulks|
  {
    && after.outbox == db.outbox && after.nextId == db.nextId && |after.bulks| == |db.bulks|
    && (forall k :: 0 <= k < |db.bulks| && k != i ==> after.bulks[k] == db.bulks[k])
    && after.bulks[i].id == db.bulks[i].id && after.bulks[i].artifact == db.bulks[i].artifact
    && after.bulks[i].captured == db.bulks[i].captured && after.bulks[i].snapshot == db.bulks[i].snapshot
    && (db.bulks[i].serverImport.Some? ==> after.bulks[i].serverImport == db.bulks[i].serverImport)
  }

  /** Nothing is applied, and the cursor stays. */
  ghost predicate Untouched(db: Db, after: Db, i: nat)
    requires i < |db.bulks| && i < |after.bulks|
  {
    after.known == db.known && after.desc == db.desc && after.bulks[i].appliedThrough == db.bulks[i].appliedThrough
  }

  lemma PageFrame(db: Db, id: nat, i: nat, rows: seq<Row>)
    requires FindBulk(db.bulks, id) == Some(i)
    ensures var after := Transact(db, id, Page(rows));
            && FindBulk(after.bulks, id) == Some(i) && Frame(db, after, i)
            && (!Open(db.bulks[i]) ==> after == db)
  {
    if ApplyRows(db, id, rows).Success? {
      AcceptedPageParts(db, id, i, rows);
      FindBulkAfterUpdate(db.bulks, id, i, MovedBy(db.bulks[i], rows));
    }
  }

  lemma UpdateFrame(db: Db, id: nat, i: nat, a: Action)
    requires FindBulk(db.bulks, id) == Some(i) && !a.Page?
    ensures var after := Transact(db, id, a);
            && FindBulk(after.bulks, id) == Some(i) && Frame(db, after, i) && Untouched(db, after, i)
            && (!Open(db.bulks[i]) && !a.Save? ==> !Open(after.bulks[i]))
  {
    var item := OneMoreUpdate(db, id, i, a);
    FindBulkAfterUpdate(db.bulks, id, i, item);
  }

  lemma ActionFrame(db: Db, id: nat, i: nat, a: Action)
    requires FindBulk(db.bulks, id) == Some(i)
    ensures var after := Transact(db, id, a);
            && FindBulk(after.bulks, id) == Some(i) && Frame(db, after, i)
            && (!Open(db.bulks[i]) && !a.Save? ==> Untouched(db, after, i) && !Open(after.bulks[i]))
  {
    if a.Page? { PageFrame(db, id, i, a.rows); } else { UpdateFrame(db, id, i, a); }
  }

  lemma {:induction false} ActionsFrame(db: Db, id: nat, i: nat, actions: seq<Action>)
    requires FindBulk(db.bulks, id) == Some(i)
    ensures FindBulk(TransactAll(db, id, actions).bulks, id) == Some(i) && Frame(db, TransactAll(db, id, actions), i)
  {
    if actions != [] {
      var n := |actions| - 1;
      ActionsFrame(db, id, i, actions[..n]);
      ActionFrame(TransactAll(db, id, actions[..n]), id, i, actions[n]);
    }
  }

  // ---------- binding an import ----------

  lemma BoundItem(db: Db, id: nat, i: nat, serverImport: nat, status: ImportStatus)
    requires FindBulk(db.bulks, id) == Some(i) && SetServerImport(db, id, serverImport, status).Success?
    ensures var bound := SetServerImport(db, id, serverImport, status).value;
            FindBulk(bound.bulks, id) == Some(i) && bound.bulks[i].serverImport == Some(serverImport)
  {
    var bound := SetServerImport(db, id, serverImport, status).value;
    FindBulkAfterUpdate(db.bulks, id, i, bound.bulks[i]);
  }

  /** An item is bound once: after any later transactions on it, binding it to another
      import is refused, and binding it to its own again is not. */
  lemma BoundOnce(db: Db, id: nat, serverImport: nat, status: ImportStatus, actions: seq<Action>, other: nat,
                  later: ImportStatus)
    requires SetServerImport(db, id, serverImport, status).Success? && other != serverImport
    ensures var w := TransactAll(SetServerImport(db, id, serverImport, status).value, id, actions);
            && SetServerImport(w, id, other, later) == Failure(BoundElsewhere)
            && SetServerImport(w, id, serverImport, later).Success?
            && w.outbox == db.outbox
  {
    var i := FindBulk(db.bulks, id).value;
    BoundItem(db, id, i, serverImport, status);
    ActionsFrame(SetServerImport(db, id, serverImport, status).value, id, i, actions);
  }

  // ---------- storing a status, saving a result ----------

  lemma {:induction false} ClosedStays(db: Db, id: nat, i: nat, actions: seq<Action>)
    requires FindBulk(db.bulks, id) == Some(i) && !Open(db.bulks[i])
    requires forall a :: a in actions ==> !a.Save?
    ensures var w := TransactAll(db, id, actions);
            && FindBulk(w.bulks, id) == Some(i) && Frame(db, w, i) && Untouched(db, w, i) && !Open(w.bulks[i])
  {
    if actions != [] {
      var n := |actions| - 1;
      assert actions == actions[..n] + [actions[n]];
      ClosedStays(db, id, i, actions[..n]);
      ActionFrame(TransactAll(db, id, actions[..n]), id, i, actions[n]);
    }
  }

  lemma ClosedRefuses(db: Db, id: nat, i: nat, rows: seq<Row>)
    requires FindBulk(db.bulks, id) == Some(i) && !Open(db.bulks[i])
    ensures ApplyRows(db, id, rows) == Failure(if rows == [] then EmptyPage else NotVerified)
  {
  }

  lemma ReportedItem(db: Db, id: nat, i: nat, status: ImportStatus, processed: Option<nat>)
    requires FindBulk(db.bulks, id) == Some(i) && UpdateStatus(db, id, status, processed).Success?
    ensures var after := UpdateStatus(db, id, status, processed).value;
            && FindBulk(after.bulks, id) == Some(i) && !Open(after.bulks[i])
            && Frame(db, after, i) && Untouched(db, after, i)
  {
    var after := UpdateStatus(db, id, status, processed).value;
    FindBulkAfterUpdate(db.bulks, id, i, after.bulks[i]);
  }

  /** A stored status closes an item for pages, however far it was applied: until its
      result is saved again, nothing moves the cursor or the known occurrences, and
      every page is refused. */
  lemma StatusClosesPages(db: Db, id: nat, status: ImportStatus, processed: Option<nat>, actions: seq<Action>,
                          rows: seq<Row>)
    requires UpdateStatus(db, id, status, processed).Success? && forall a :: a in actions ==> !a.Save?
    ensures var w := TransactAll(UpdateStatus(db, id, status, processed).value, id, actions);
            && ApplyRows(w, id, rows) == Failure(if rows == [] then EmptyPage else NotVerified)
            && w.known == db.known && w.desc == db.desc && w.outbox == db.outbox
            && FindBulk(w.bulks, id) == FindBulk(db.bulks, id) && |w.bulks| == |db.bulks|
            && w.bulks[FindBulk(w.bulks, id).value].appliedThrough
               == db.bulks[FindBulk(db.bulks, id).value].appliedThrough
  {
    var i := FindBulk(db.bulks, id).value;
    var reported := UpdateStatus(db, id, status, processed).value;
    ReportedItem(db, id, i, status, processed);
    ClosedStays(reported, id, i, actions);
    ClosedRefuses(TransactAll(reported, id, actions), id, i, rows);
  }

  lemma SavedItem(db: Db, id: nat, i: nat)
    requires FindBulk(db.bulks, id) == Some(i) && RecordResult(db, id).Success?
    ensures var saved := RecordResult(db, id).value;
            && FindBulk(saved.bulks, id) == Some(i) && saved.bulks[i].state == ResultReady
            && Frame(db, saved, i) && Untouched(db, saved, i)
  {
    var saved := RecordResult(db, id).value;
    FindBulkAfterUpdate(db.bulks, id, i, saved.bulks[i]);
  }

  lemma OpenAccepts(db: Db, id: nat, i: nat, page: seq<Row>)
    requires FindBulk(db.bulks, id) == Some(i) && Open(db.bulks[i])
    ensures ApplyRows(db, id, page).Success? <==>
            page != [] && FirstError(page, db.bulks[i].appliedThrough, db.bulks[i].artifact.entryCount) == None
  {
  }

  /** A result can be saved exactly for a bound import that finished, and saving it
      opens a closed item at the cursor it had: exactly the clean pages that start
      there are then accepted. */
  lemma SavingReopens(db: Db, id: nat, i: nat, page: seq<Row>)
    requires FindBulk(db.bulks, id) == Some(i) && !Open(db.bulks[i])
    ensures ApplyRows(db, id, page).Failure?
    ensures RecordResult(db, id).Success? <==>
            db.bulks[i].serverImport.Some? && db.bulks[i].serverStatus in {Some(Succeeded), Some(CompletedWithErrors)}
    ensures RecordResult(db, id).Success? ==>
              var saved := RecordResult(db, id).value;
              && Frame(db, saved, i) && Untouched(db, saved, i)
              && (ApplyRows(saved, id, page).Success? <==>
                    page != [] && FirstError(page, db.bulks[i].appliedThrough, db.bulks[i].artifact.entryCount) == None)
  {
    ClosedRefuses(db, id, i, page);
    if RecordResult(db, id).Success? {
      SavedItem(db, id, i);
      OpenAccepts(RecordResult(db, id).value, id, i, page);
    }
  }

  // ---------- completing and failing ----------

  lemma CompletedItem(db: Db, id: nat, i: nat)
    requires FindBulk(db.bulks, id) == Some(i) && CompleteBulk(db, id).Success?
    ensures var done := CompleteBulk(db, id).value;
            && FindBulk(done.bulks, id) == Some(i) && done.bulks == db.bulks[i := db.bulks[i].(state := Applied)]
            && done.outbox == DiscardPending(db.outbox, SetOf(db.bulks[i].captured))
            && done.known == db.known && done.desc == db.desc
  {
    FindBulkAfterUpdate(db.bulks, id, i, db.bulks[i].(state := Applied));
  }

  lemma DiscardedTwice(outbox: seq<Batch>, ids: set<nat>)
    ensures DiscardPending(DiscardPending(outbox, ids), ids) == DiscardPending(outbox, ids)
    ensures IdsOf(DiscardPending(outbox, ids)) == IdsOf(outbox)
  {
    var after := DiscardPending(outbox, ids);
    forall id ensures id in IdsOf(after) <==> id in IdsOf(outbox) {
      if id in IdsOf(after) {
        var b :| b in after && b.id == id;
        var k :| 0 <= k < |after| && after[k] == b;
        assert outbox[k] in outbox;
      }
      if id in IdsOf(outbox) {
        var b :| b in outbox && b.id == id;
        var k :| 0 <= k < |outbox| && outbox[k] == b;
        assert after[k] in after;
      }
    }
  }

  lemma CompletedTwice(db: Db, id: nat, i: nat, done: Db)
    requires FindBulk(db.bulks, id) == Some(i) && CompleteBulk(db, id) == Success(done)
    ensures CompleteBulk(done, id) == Success(done)
  {
    CompletedItem(db, id, i);
    DiscardedTwice(db.outbox, SetOf(db.bulks[i].captured));
    assert done.bulks[i := done.bulks[i].(state := Applied)] == done.bulks;
  }

  /** Completing an item supersedes exactly the captured batches that were pending:
      the others stay pending in their order, no other row changes, nothing more is
      delivered, and the item is closed for pages.  Completing again changes nothing. */
  lemma CompletionSupersedes(db: Db, id: nat, i: nat, rows: seq<Row>)
    requires FindBulk(db.bulks, id) == Some(i) && CompleteBulk(db, id).Success?
    ensures var done, captured := CompleteBulk(db, id).value, SetOf(db.bulks[i].captured);
            && PendingOf(done.outbox) == Without(PendingOf(db.outbox), captured)
            && Leaves(db.outbox, done.outbox, captured)
            && done.known == db.known && done.desc == db.desc
            && (forall k :: 0 <= k < |db.bulks| && k != i ==> k < |done.bulks| && done.bulks[k] == db.bulks[k])
            && ApplyRows(done, id, rows).Failure? && CompleteBulk(done, id) == Success(done)
  {
    var done := CompleteBulk(db, id).value;
    CompletedItem(db, id, i);
    PendingRest(db.outbox, done.outbox, SetOf(db.bulks[i].captured));
    ClosedRefuses(done, id, i, rows);
    CompletedTwice(db, id, i, done);
  }

  /** The batches may be captured for a file of this content. */
  ghost predicate Capturable(outbox: seq<Batch>, ids: seq<nat>, artifact: Artifact) {
    && artifact.bytes > 0 && artifact.entryCount > 0
    && IdsOf(Members(outbox, SetOf(Dedup(ids)))) == SetOf(Dedup(ids))
    && (forall e :: e in EntriesOf(Members(outbox, SetOf(Dedup(ids)))) ==> HashedUpsert(e))
    && |EntriesOf(Members(outbox, SetOf(Dedup(ids))))| == artifact.entryCount
  }

  lemma FailedItem(db: Db, id: nat, i: nat, state: ImportStatus, serverStatus: Option<ImportStatus>)
    requires FindBulk(db.bulks, id) == Some(i) && state in {FailedPermanent, Cancelled, Expired}
    ensures FailBulk(db, id, state, serverStatus).Success?
    ensures var after := FailBulk(db, id, state, serverStatus).value;
            && FindBulk(after.bulks, id) == Some(i) && Terminal(after.bulks[i].state)
            && Frame(db, after, i) && Untouched(db, after, i)
  {
    var after := FailBulk(db, id, state, serverStatus).value;
    FindBulkAfterUpdate(db.bulks, id, i, after.bulks[i]);
  }

  lemma NothingActive(bulks: seq<BulkItem>)
    requires forall k :: 0 <= k < |bulks| ==> Terminal(bulks[k].state)
    ensures ActiveBulk(bulks).None?
  {
  }

  lemma NoSnapshot(bulks: seq<BulkItem>, snapshot: nat)
    requires forall k :: 0 <= k < |bulks| ==> bulks[k].snapshot != snapshot
    ensures FindSnapshot(bulks, snapshot).None?
  {
  }

  lemma ActiveRefuses(db: Db, i: nat, snapshot: nat, artifact: Artifact, ids: seq<nat>)
    requires i < |db.bulks| && !Terminal(db.bulks[i].state) && artifact.bytes > 0 && artifact.entryCount > 0
    requires forall k :: 0 <= k < |db.bulks| ==> db.bulks[k].snapshot != snapshot
    ensures QueueBulk(db, snapshot, artifact, ids) == Failure(AlreadyActive)
  {
    assert db.bulks[i] in db.bulks;
  }

  lemma FreeQueues(db: Db, snapshot: nat, artifact: Artifact, ids: seq<nat>)
    requires ActiveBulk(db.bulks).None? && FindSnapshot(db.bulks, snapshot).None?
             && Capturable(db.outbox, ids, artifact)
    ensures QueueBulk(db, snapshot, artifact, ids).Success?
    ensures QueueBulk(db, snapshot, artifact, ids).value.1.captured == Dedup(ids)
  {
  }

  /** Giving up the active item frees the batches it captured: none of them changes,
      nothing is applied or undone, pages are refused, and while no import could be
      queued for another snapshot before, the same batches can be queued for one now. */
  lemma FailureFreesBatches(db: Db, id: nat, i: nat, state: ImportStatus, serverStatus: Option<ImportStatus>,
                            rows: seq<Row>, snapshot: nat, artifact: Artifact, ids: seq<nat>)
    requires FindBulk(db.bulks, id) == Some(i) && state in {FailedPermanent, Cancelled, Expired}
    requires !Terminal(db.bulks[i].state)
    requires forall k :: 0 <= k < |db.bulks| && k != i ==> Terminal(db.bulks[k].state)
    requires forall k :: 0 <= k < |db.bulks| ==> db.bulks[k].snapshot != snapshot
    requires Capturable(db.outbox, ids, artifact)
    ensures FailBulk(db, id, state, serverStatus).Success?
    ensures var after := FailBulk(db, id, state, serverStatus).value;
            && Frame(db, after, i) && Untouched(db, after, i) && ApplyRows(after, id, rows).Failure?
            && QueueBulk(db, snapshot, artifact, ids) == Failure(AlreadyActive)
            && QueueBulk(after, snapshot, artifact, ids).Success?
            && QueueBulk(after, snapshot, artifact, ids).value.1.captured == Dedup(ids)
  {
    var after := FailBulk(db, id, state, serverStatus).value;
    FailedItem(db, id, i, state, serverStatus);
    ClosedRefuses(after, id, i, rows);
    ActiveRefuses(db, i, snapshot, artifact, ids);
    NothingActive(after.bulks);
    NoSnapshot(after.bulks, snapshot);
    FreeQueues(after, snapshot, artifact, ids);
  }
}
