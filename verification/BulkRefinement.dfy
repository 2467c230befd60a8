/** The bulk import against the batch path it replaces, and the exactness of its
    resume cursor. */
module BulkRefinement {
  import opened Options
  import opened Manifest
  import opened Outbox
  import Permutations
  import Splitting

  // ---------- the transactions of one bulk item ----------

  /** A transaction on an item before it is completed. */
  datatype Action =
    | Page(rows: seq<Row>)
    | Bind(serverImport: nat, status: ImportStatus)
    | Report(status: ImportStatus, processed: Option<nat>)
    | Save
    | GiveUp(status: ImportStatus, serverStatus: Option<ImportStatus>)

  function Kept(db: Db, r: Result<Db, Refusal>): Db {
    if r.Success? then r.value else db
  }

  /** A refused transaction leaves no trace. */
  function Transact(db: Db, id: nat, a: Action): Db {
    match a
    case Page(rows) => var r := ApplyRows(db, id, rows); if r.Success? then r.value.0 else db
    case Bind(serverImport, status) => Kept(db, SetServerImport(db, id, serverImport, status))
    case Report(status, processed) => Kept(db, UpdateStatus(db, id, status, processed))
    case Save => Kept(db, RecordResult(db, id))
    case GiveUp(status, serverStatus) => Kept(db, FailBulk(db, id, status, serverStatus))
  }

  function TransactAll(db: Db, id: nat, actions: seq<Action>): Db {
    if actions == [] then db
    else Transact(TransactAll(db, id, actions[..|actions| - 1]), id, actions[|actions| - 1])
  }

  lemma TransactSnoc(db: Db, id: nat, actions: seq<Action>, a: Action)
    ensures TransactAll(db, id, actions + [a]) == Transact(TransactAll(db, id, actions), id, a)
  {
    assert (actions + [a])[..|actions|] == actions;
  }

  lemma {:induction false} TransactConcat(db: Db, id: nat, a: seq<Action>, b: seq<Action>)
    ensures TransactAll(db, id, a + b) == TransactAll(TransactAll(db, id, a), id, b)
  {
    if b == [] {
      assert a + b == a;
    } else {
      var front, last := b[..|b| - 1], b[|b| - 1];
      assert b == front + [last] && a + b == (a + front) + [last];
      TransactConcat(db, id, a, front);
      TransactSnoc(db, id, a + front, last);
      TransactSnoc(TransactAll(db, id, a), id, front, last);
    }
  }

  // ---------- the resume cursor ----------

  /** The rows of a verified result, numbered from one. */
  function Numbered(ds: seq<Delivery>): seq<Row> {
    seq(|ds|, i requires 0 <= i < |ds| => Row(i + 1, ds[i].0, ds[i].1))
  }

  ghost predicate ReadFrom(page: seq<Row>, result: seq<Delivery>) {
    forall r :: r in page && 1 <= r.number <= |result| ==> r == Numbered(result)[r.number - 1]
  }

  lemma FirstErrorSnoc(rows: seq<Row>, row: Row, current: nat, entryCount: nat)
    ensures FirstError(rows + [row], current, entryCount)
         == if FirstError(rows, current, entryCount).Some? then FirstError(rows, current, entryCount)
            else RowError(row, current + |rows| + 1, entryCount)
  {
    assert (rows + [row])[..|rows|] == rows;
  }

  lemma {:induction false} AcceptedPageIsContiguous(rows: seq<Row>, current: nat, entryCount: nat)
    requires FirstError(rows, current, entryCount) == None
    ensures forall i :: 0 <= i < |rows| ==> RowError(rows[i], current + 1 + i, entryCount) == None
  {
    if rows != [] {
      var front, last := rows[..|rows| - 1], rows[|rows| - 1];
      assert rows == front + [last];
      FirstErrorSnoc(front, last, current, entryCount);
      AcceptedPageIsContiguous(front, current, entryCount);
    }
  }

  lemma AcceptedRow(row: Row, expected: nat, entryCount: nat)
    requires RowError(row, expected, entryCount) == None
    ensures row.number == expected <= entryCount
  {
  }

  lemma {:induction false} ContiguousPageIsAccepted(rows: seq<Row>, current: nat, entryCount: nat)
    requires forall i :: 0 <= i < |rows| ==> RowError(rows[i], current + 1 + i, entryCount) == None
    ensures FirstError(rows, current, entryCount) == None
  {
    if rows != [] {
      ContiguousPageIsAccepted(rows[..|rows| - 1], current, entryCount);
    }
  }

  lemma DeliveriesSnoc(rows: seq<Row>, row: Row)
    ensures Deliveries(rows + [row])
         == Deliveries(rows) + if row.result.outcome == Rejected then [] else [(row.entry, row.result)]
  {
    assert (rows + [row])[..|rows|] == rows;
  }

  lemma {:induction false} DeliveriesConcat(a: seq<Row>, b: seq<Row>)
    ensures Deliveries(a + b) == Deliveries(a) + Deliveries(b)
  {
    if b == [] {
      assert a + b == a;
    } else {
      var front, last := b[..|b| - 1], b[|b| - 1];
      DeliveriesConcat(a, front);
      DeliveriesSnoc(front, last);
      DeliveriesSnoc(a + front, last);
      assert b == front + [last] && a + b == (a + front) + [last];
      Permutations.Associative(Deliveries(a), Deliveries(front), Deliveries([last]));
    }
  }

  /** The database with exactly the first `n` rows of a result folded in, and `item`
      as the bulk item. */
  function Folded(start: Db, i: nat, result: seq<Delivery>, n: nat, item: BulkItem): Db
    requires i < |start.bulks| && n <= |result|
  {
    var store := DeliverAll(start.source, StoreOf(start), Deliveries(Numbered(result)[..n]));
    start.(known := store.known, desc := store.desc, bulks := start.bulks[i := item])
  }

  /** The item is still the same one, with its cursor at `n`. */
  predicate SameItem(base: BulkItem, item: BulkItem, n: nat) {
    && item.id == base.id && item.snapshot == base.snapshot && item.artifact == base.artifact
    && item.captured == base.captured && item.appliedThrough == n
  }

  lemma {:induction false} FindBulkAfterUpdate(bulks: seq<BulkItem>, id: nat, i: nat, item: BulkItem)
    requires FindBulk(bulks, id) == Some(i) && item.id == id
    ensures FindBulk(bulks[i := item], id) == Some(i)
  {
    var last := |bulks| - 1;
    if i < last {
      FindBulkAfterUpdate(bulks[..last], id, i, item);
      assert bulks[i := item][..last] == bulks[..last][i := item];
    }
  }

  lemma PageIsNextRows(page: seq<Row>, result: seq<Delivery>, n: nat)
    requires ReadFrom(page, result) && n <= |result| && page != []
    requires FirstError(page, n, |result|) == None
    ensures n + |page| <= |result| && page == Numbered(result)[n..n + |page|]
  {
    AcceptedPageIsContiguous(page, n, |result|);
    forall k | 0 <= k < |page| ensures page[k].number == n + 1 + k <= |result| {
      AcceptedRow(page[k], n + 1 + k, |result|);
    }
    assert page[|page| - 1].number <= |result|;
    forall k | 0 <= k < |page| ensures page[k] == Numbered(result)[n + k] {
      assert page[k] in page;
    }
  }

  /** Applying the next rows of the result moves the fold by exactly those rows. */
  lemma FoldExtends(start: Db, result: seq<Delivery>, n: nat, m: nat)
    requires n <= m <= |result|
    ensures var rows := Numbered(result);
            var store := DeliverAll(start.source, StoreOf(start), Deliveries(rows[..n]));
            DeliverAll(start.source, store, Deliveries(rows[n..m]))
            == DeliverAll(start.source, StoreOf(start), Deliveries(rows[..m]))
  {
    var rows := Numbered(result);
    assert rows[..m] == rows[..n] + rows[n..m];
    DeliveriesConcat(rows[..n], rows[n..m]);
    DeliverAllConcat(start.source, StoreOf(start), Deliveries(rows[..n]), Deliveries(rows[n..m]));
  }

  /** What an accepted page does, taken apart. */
  function PageApplied(db: Db, i: nat, page: seq<Row>): Db
    requires i < |db.bulks|
  {
    var store := DeliverAll(db.source, StoreOf(db), Deliveries(page));
    db.(known := store.known, desc := store.desc,
        bulks := db.bulks[i := MovedBy(db.bulks[i], page)])
  }

  lemma AcceptedPage(db: Db, id: nat, i: nat, page: seq<Row>)
    requires FindBulk(db.bulks, id) == Some(i) && ApplyRows(db, id, page).Success?
    ensures page != [] && FirstError(page, db.bulks[i].appliedThrough, db.bulks[i].artifact.entryCount) == None
    ensures ApplyRows(db, id, page).value.0 == PageApplied(db, i, page)
  {
  }

  lemma AcceptedAs(db: Db, id: nat, i: nat, page: seq<Row>, after: Db)
    requires FindBulk(db.bulks, id) == Some(i) && ApplyRows(db, id, page).Success? && PageApplied(db, i, page) == after
    ensures ApplyRows(db, id, page).value.0 == after
  {
    AcceptedPage(db, id, i, page);
  }

  lemma PageParts(db: Db, i: nat, page: seq<Row>, store: Store)
    requires i < |db.bulks| && store == DeliverAll(db.source, StoreOf(db), Deliveries(page))
    ensures PageApplied(db, i, page) == Written(db, i, store, MovedBy(db.bulks[i], page))
  {
  }

  /** The database with another store and another item. */
  function Written(db: Db, i: nat, store: Store, item: BulkItem): Db
    requires i < |db.bulks|
  {
    db.(known := store.known, desc := store.desc, bulks := db.bulks[i := item])
  }

  function MovedBy(item: BulkItem, page: seq<Row>): BulkItem {
    item.(appliedThrough := item.appliedThrough + |page|, state := ApplyingResult)
  }

  lemma AcceptedPageParts(db: Db, id: nat, i: nat, page: seq<Row>)
    requires FindBulk(db.bulks, id) == Some(i) && ApplyRows(db, id, page).Success?
    ensures var after := ApplyRows(db, id, page).value.0;
            && after.known == DeliverAll(db.source, StoreOf(db), Deliveries(page)).known
            && after.outbox == db.outbox && after.nextId == db.nextId
            && after.bulks == db.bulks[i := MovedBy(db.bulks[i], page)]
  {
    AcceptedPage(db, id, i, page);
    PageParts(db, i, page, DeliverAll(db.source, StoreOf(db), Deliveries(page)));
  }

  lemma FoldMoves(start: Db, i: nat, result: seq<Delivery>, n: nat, m: nat, item: BulkItem)
    requires i < |start.bulks| && n <= m <= |result| && item.appliedThrough == n
    ensures PageApplied(Folded(start, i, result, n, item), i, Numbered(result)[n..m])
         == Folded(start, i, result, m, item.(appliedThrough := m, state := ApplyingResult))
  {
    FoldExtends(start, result, n, m);
    var before := Folded(start, i, result, n, item);
    assert StoreOf(before) == DeliverAll(start.source, StoreOf(start), Deliveries(Numbered(result)[..n]));
    ReplaceTwice(start.bulks, i, item, item.(appliedThrough := m, state := ApplyingResult));
  }

  lemma ReplaceTwice(bulks: seq<BulkItem>, i: nat, first: BulkItem, second: BulkItem)
    requires i < |bulks|
    ensures bulks[i := first][i := second] == bulks[i := second]
  {
  }

  lemma ItemReplaced(start: Db, i: nat, result: seq<Delivery>, n: nat, item: BulkItem, after: BulkItem)
    requires i < |start.bulks| && n <= |result|
    ensures var f := Folded(start, i, result, n, item);
            f.(bulks := f.bulks[i := after]) == Folded(start, i, result, n, after)
  {
    ReplaceTwice(start.bulks, i, item, after);
  }

  lemma FoldedPage(start: Db, id: nat, i: nat, result: seq<Delivery>, n: nat, item: BulkItem, page: seq<Row>)
    requires FindBulk(start.bulks, id) == Some(i) && n <= |result| && SameItem(start.bulks[i], item, n)
    requires ApplyRows(Folded(start, i, result, n, item), id, page).Success?
    ensures page != [] && FirstError(page, n, item.artifact.entryCount) == None
    ensures ApplyRows(Folded(start, i, result, n, item), id, page).value.0
         == PageApplied(Folded(start, i, result, n, item), i, page)
  {
    FindBulkAfterUpdate(start.bulks, id, i, item);
    AcceptedPage(Folded(start, i, result, n, item), id, i, page);
  }

  /** The next rows of the result, once accepted, move the fold by their number. */
  lemma PageExtends(start: Db, id: nat, i: nat, result: seq<Delivery>, n: nat, item: BulkItem, page: seq<Row>)
    requires FindBulk(start.bulks, id) == Some(i) && n + |page| <= |result| && SameItem(start.bulks[i], item, n)
    requires page == Numbered(result)[n..n + |page|]
    requires ApplyRows(Folded(start, i, result, n, item), id, page).Success?
    ensures ApplyRows(Folded(start, i, result, n, item), id, page).value.0
         == Folded(start, i, result, n + |page|, item.(appliedThrough := n + |page|, state := ApplyingResult))
  {
    FindBulkAfterUpdate(start.bulks, id, i, item);
    FoldMoves(start, i, result, n, n + |page|, item);
    AcceptedAs(Folded(start, i, result, n, item), id, i, page,
               Folded(start, i, result, n + |page|, item.(appliedThrough := n + |page|, state := ApplyingResult)));
  }

  /** An offered page leaves the fold as it is, or moves it on. */
  lemma OneMorePage(start: Db, id: nat, i: nat, result: seq<Delivery>, n: nat, item: BulkItem, page: seq<Row>)
    returns (m: nat, after: BulkItem)
    requires FindBulk(start.bulks, id) == Some(i) && n <= |result| && SameItem(start.bulks[i], item, n)
    requires item.artifact.entryCount == |result| && ReadFrom(page, result)
    ensures n <= m <= |result| && SameItem(start.bulks[i], after, m)
    ensures Transact(Folded(start, i, result, n, item), id, Page(page)) == Folded(start, i, result, m, after)
  {
    if ApplyRows(Folded(start, i, result, n, item), id, page).Success? {
      FoldedPage(start, id, i, result, n, item, page);
      PageIsNextRows(page, result, n);
      PageExtends(start, id, i, result, n, item, page);
      m, after := n + |page|, item.(appliedThrough := n + |page|, state := ApplyingResult);
    } else {
      m, after := n, item;
    }
  }

  /** Every other transaction only changes the item, and not its cursor. */
  lemma OneMoreUpdate(db: Db, id: nat, i: nat, a: Action) returns (after: BulkItem)
    requires FindBulk(db.bulks, id) == Some(i) && !a.Page?
    ensures Transact(db, id, a) == db.(bulks := db.bulks[i := after])
    ensures SameItem(db.bulks[i], after, db.bulks[i].appliedThrough)
  {
    var changed := Transact(db, id, a);
    after := if changed == db then db.bulks[i] else changed.bulks[i];
    assert db.bulks[i := db.bulks[i]] == db.bulks;
  }

  lemma OneMoreAction(start: Db, id: nat, i: nat, result: seq<Delivery>, n: nat, item: BulkItem, a: Action)
    returns (m: nat, after: BulkItem)
    requires FindBulk(start.bulks, id) == Some(i) && n <= |result| && SameItem(start.bulks[i], item, n)
    requires item.artifact.entryCount == |result| && (a.Page? ==> ReadFrom(a.rows, result))
    ensures n <= m <= |result| && SameItem(start.bulks[i], after, m)
    ensures Transact(Folded(start, i, result, n, item), id, a) == Folded(start, i, result, m, after)
  {
    if a.Page? {
      m, after := OneMorePage(start, id, i, result, n, item, a.rows);
    } else {
      m := n;
      FindBulkAfterUpdate(start.bulks, id, i, item);
      after := OneMoreUpdate(Folded(start, i, result, n, item), id, i, a);
      ItemReplaced(start, i, result, n, item, after);
    }
  }

  ghost predicate AllReadFrom(actions: seq<Action>, result: seq<Delivery>) {
    forall a :: a in actions && a.Page? ==> ReadFrom(a.rows, result)
  }

  /** Cursor exactness.  From any cursor `k` with the first `k` rows folded in,
      whatever pages of the verified result are offered, in any sizes, repeated,
      stale or out of order, with statuses, bindings, results and failures recorded
      in between, the database is the starting one with exactly the first `n` rows
      folded in and the cursor at `n`. */
  lemma {:induction false} CursorIsExact(start: Db, id: nat, i: nat, result: seq<Delivery>, k: nat, held: BulkItem,
                                         actions: seq<Action>)
    returns (n: nat, item: BulkItem)
    requires FindBulk(start.bulks, id) == Some(i) && k <= |result| && SameItem(start.bulks[i], held, k)
    requires held.artifact.entryCount == |result| && AllReadFrom(actions, result)
    ensures k <= n <= |result| && SameItem(start.bulks[i], item, n)
    ensures TransactAll(Folded(start, i, result, k, held), id, actions) == Folded(start, i, result, n, item)
  {
    if actions == [] {
      n, item := k, held;
    } else {
      var front, last := actions[..|actions| - 1], actions[|actions| - 1];
      assert actions == front + [last] && last in actions;
      n, item := CursorIsExact(start, id, i, result, k, held, front);
      n, item := OneMoreAction(start, id, i, result, n, item, last);
    }
  }

  /** Before any row is applied, the fold is the database itself. */
  lemma NothingFolded(start: Db, i: nat, result: seq<Delivery>, item: BulkItem)
    requires i < |start.bulks|
    ensures Folded(start, i, result, 0, item) == start.(bulks := start.bulks[i := item])
    ensures Folded(start, i, result, 0, start.bulks[i]) == start
  {
    assert Numbered(result)[..0] == [];
    assert start.bulks[i := start.bulks[i]] == start.bulks;
  }

  // ---------- the batch path ----------

  function AcknowledgeAll(db: Db, batches: seq<Batch>, responses: seq<Response>): Db
    requires |batches| == |responses|
  {
    if batches == [] then db
    else
      var n := |batches| - 1;
      Acknowledge(AcknowledgeAll(db, batches[..n], responses[..n]), batches[n], responses[n])
  }

  /** An accepted row that the page transaction has no reason to refuse. */
  predicate Applicable(e: Entry, r: EntryResult) {
    RowError(Row(1, e, r), 1, 1) == None && r.outcome != Rejected
  }

  lemma ApplicableAnywhere(e: Entry, r: EntryResult, number: nat, entryCount: nat)
    requires Applicable(e, r) && 1 <= number <= entryCount
    ensures RowError(Row(number, e, r), number, entryCount) == None
  {
  }

  /** A well-formed answer to every entry of a batch, none of them a rejection. */
  ghost predicate AllAccepted(batch: Batch, response: Response) {
    && response.rejectedCount == 0
    && |response.results| == |batch.entries|
    && DistinctItems(batch.entries)
    && forall i :: 0 <= i < |batch.entries| ==> Applicable(batch.entries[i], response.results[i])
  }

  /** Each entry with its own result; a malformed answer pairs nothing. */
  function Zip(entries: seq<Entry>, results: seq<EntryResult>): seq<Delivery> {
    if |entries| != |results| then []
    else seq(|entries|, i requires 0 <= i < |entries| => (entries[i], results[i]))
  }

  function ZipAll(batches: seq<Batch>, responses: seq<Response>): seq<Delivery>
    requires |batches| == |responses|
  {
    if batches == [] then []
    else
      var n := |batches| - 1;
      ZipAll(batches[..n], responses[..n]) + Zip(batches[n].entries, responses[n].results)
  }

  /** With distinct items, reading the results by item finds each entry's own. */
  lemma {:induction false} OwnResult(results: seq<EntryResult>, i: nat)
    requires i < |results| && results[i].item != ""
    requires forall k :: i < k < |results| ==> results[k].item != results[i].item
    ensures ResultFor(results, results[i].item) == Some(results[i])
  {
    if i < |results| - 1 {
      OwnResult(results[..|results| - 1], i);
    }
  }

  lemma AcceptedSnoc(entries: seq<Entry>, e: Entry, reliable: bool, results: seq<EntryResult>)
    requires Accepts(e, reliable, ResultFor(results, e.item))
    ensures Accepted(entries + [e], reliable, results)
            == Accepted(entries, reliable, results) + [(e, ResultFor(results, e.item).value)]
    ensures Refused(entries + [e], reliable, results) == Refused(entries, reliable, results)
  {
    assert (entries + [e])[..|entries|] == entries;
    assert Refused(entries, reliable, results) + [] == Refused(entries, reliable, results);
  }

  lemma ZipSnoc(entries: seq<Entry>, results: seq<EntryResult>, n: nat)
    requires 0 < n <= |entries| == |results|
    ensures Zip(entries, results)[..n] == Zip(entries, results)[..n - 1] + [(entries[n - 1], results[n - 1])]
    ensures entries[..n] == entries[..n - 1] + [entries[n - 1]]
  {
  }

  lemma {:induction false} AcceptedIsZip(entries: seq<Entry>, reliable: bool, results: seq<EntryResult>, n: nat)
    requires n <= |entries| == |results|
    requires forall i :: 0 <= i < |entries| ==>
               Accepts(entries[i], reliable, Some(results[i]))
                   && ResultFor(results, entries[i].item) == Some(results[i])
    ensures Accepted(entries[..n], reliable, results) == Zip(entries, results)[..n]
    ensures Refused(entries[..n], reliable, results) == []
  {
    if n > 0 {
      AcceptedIsZip(entries, reliable, results, n - 1);
      ZipSnoc(entries, results, n);
      AcceptedSnoc(entries[..n - 1], entries[n - 1], reliable, results);
    }
  }

  lemma AllAcceptedDelivers(batch: Batch, response: Response)
    requires AllAccepted(batch, response)
    ensures Accepted(batch.entries, batch.reliable, response.results) == Zip(batch.entries, response.results)
    ensures Clean(batch, response)
  {
    var n := |batch.entries|;
    forall i | 0 <= i < n
      ensures Accepts(batch.entries[i], batch.reliable, Some(response.results[i]))
      ensures ResultFor(response.results, batch.entries[i].item) == Some(response.results[i])
    {
      assert forall k :: i < k < n ==> response.results[k].item == batch.entries[k].item;
      OwnResult(response.results, i);
    }
    AcceptedIsZip(batch.entries, batch.reliable, response.results, n);
    assert batch.entries[..n] == batch.entries;
  }

  /** Mark the rows of a set of batches as delivered. */
  function MarkSent(outbox: seq<Batch>, ids: set<nat>): seq<Batch> {
    seq(|outbox|, i requires 0 <= i < |outbox| =>
      if outbox[i].id in ids then outbox[i].(state := Sent, failures := []) else outbox[i])
  }

  /** What acknowledging clean batches delivers, in order. */
  function AcceptedAll(batches: seq<Batch>, responses: seq<Response>): seq<Delivery>
    requires |batches| == |responses|
  {
    if batches == [] then []
    else
      var n := |batches| - 1;
      AcceptedAll(batches[..n], responses[..n])
          + Accepted(batches[n].entries, batches[n].reliable, responses[n].results)
  }

  lemma MarkSentSnoc(outbox: seq<Batch>, batches: seq<Batch>, batch: Batch)
    ensures SetBatch(MarkSent(outbox, IdsOf(batches)), batch.id, Sent, []) == MarkSent(outbox, IdsOf(batches + [batch]))
  {
    assert IdsOf(batches + [batch]) == IdsOf(batches) + {batch.id};
  }

  lemma {:induction false} AcknowledgeAllDelivers(db: Db, batches: seq<Batch>, responses: seq<Response>)
    requires |batches| == |responses|
    requires forall i :: 0 <= i < |batches| ==> Clean(batches[i], responses[i])
    ensures StoreOf(AcknowledgeAll(db, batches, responses))
         == DeliverAll(db.source, StoreOf(db), AcceptedAll(batches, responses))
    ensures AcknowledgeAll(db, batches, responses).source == db.source
    ensures AcknowledgeAll(db, batches, responses).outbox == MarkSent(db.outbox, IdsOf(batches))
  {
    if batches == [] {
      assert MarkSent(db.outbox, {}) == db.outbox;
    } else {
      var n := |batches| - 1;
      assert batches == batches[..n] + [batches[n]];
      AcknowledgeAllDelivers(db, batches[..n], responses[..n]);
      DeliverAllConcat(db.source, StoreOf(db), AcceptedAll(batches[..n], responses[..n]),
                       Accepted(batches[n].entries, batches[n].reliable, responses[n].results));
      MarkSentSnoc(db.outbox, batches[..n], batches[n]);
    }
  }

  lemma AllAreClean(batches: seq<Batch>, responses: seq<Response>)
    requires |batches| == |responses|
    requires forall i :: 0 <= i < |batches| ==> AllAccepted(batches[i], responses[i])
    ensures forall i :: 0 <= i < |batches| ==> Clean(batches[i], responses[i])
  {
    forall i | 0 <= i < |batches| ensures Clean(batches[i], responses[i]) {
      AllAcceptedDelivers(batches[i], responses[i]);
    }
  }

  lemma {:induction false} AcceptedAllIsZip(batches: seq<Batch>, responses: seq<Response>)
    requires |batches| == |responses|
    requires forall i :: 0 <= i < |batches| ==> AllAccepted(batches[i], responses[i])
    ensures AcceptedAll(batches, responses) == ZipAll(batches, responses)
  {
    if batches != [] {
      var n := |batches| - 1;
      forall i | 0 <= i < n ensures AllAccepted(batches[..n][i], responses[..n][i]) {
        assert AllAccepted(batches[i], responses[i]);
      }
      AcceptedAllIsZip(batches[..n], responses[..n]);
      AllAcceptedDelivers(batches[n], responses[n]);
    }
  }

  lemma {:induction false} SamePending(a: seq<Batch>, b: seq<Batch>)
    requires |a| == |b|
    requires forall i :: 0 <= i < |a| ==> (a[i].state == Pending <==> b[i].state == Pending)
    requires forall i :: 0 <= i < |a| && a[i].state == Pending ==> a[i] == b[i]
    ensures PendingOf(a) == PendingOf(b)
  {
    if a != [] {
      SamePending(a[..|a| - 1], b[..|b| - 1]);
    }
  }

  // ---------- the bulk path ----------

  ghost predicate Pairs(ds: seq<Delivery>, entries: seq<Entry>) {
    && |ds| == |entries| && (forall k :: 0 <= k < |ds| ==> ds[k].0 == entries[k])
    && forall k :: 0 <= k < |ds| ==> Applicable(ds[k].0, ds[k].1)
  }

  lemma PairsConcat(a: seq<Delivery>, b: seq<Delivery>, x: seq<Entry>, y: seq<Entry>)
    requires Pairs(a, x) && Pairs(b, y)
    ensures Pairs(a + b, x + y)
  {
  }

  lemma {:induction false} ZipAllPairs(batches: seq<Batch>, responses: seq<Response>)
    requires |batches| == |responses|
    requires forall i :: 0 <= i < |batches| ==> AllAccepted(batches[i], responses[i])
    ensures Pairs(ZipAll(batches, responses), EntriesOf(batches))
  {
    if batches != [] {
      var n := |batches| - 1;
      forall i | 0 <= i < n ensures AllAccepted(batches[..n][i], responses[..n][i]) {
        assert AllAccepted(batches[i], responses[i]);
      }
      ZipAllPairs(batches[..n], responses[..n]);
      AllAcceptedZip(batches[n], responses[n]);
      PairsConcat(ZipAll(batches[..n], responses[..n]), Zip(batches[n].entries, responses[n].results),
                  EntriesOf(batches[..n]), batches[n].entries);
    }
  }

  lemma ZipAllShape(batches: seq<Batch>, responses: seq<Response>)
    requires |batches| == |responses|
    requires forall i :: 0 <= i < |batches| ==> AllAccepted(batches[i], responses[i])
    ensures |ZipAll(batches, responses)| == |EntriesOf(batches)|
    ensures forall k :: 0 <= k < |EntriesOf(batches)| ==> ZipAll(batches, responses)[k].0 == EntriesOf(batches)[k]
    ensures forall d :: d in ZipAll(batches, responses) ==> Applicable(d.0, d.1)
  {
    ZipAllPairs(batches, responses);
  }

  lemma AllAcceptedZip(batch: Batch, response: Response)
    requires AllAccepted(batch, response)
    ensures forall d :: d in Zip(batch.entries, response.results) ==> Applicable(d.0, d.1)
  {
  }

  lemma {:induction false} NothingRejected(ds: seq<Delivery>, n: nat)
    requires n <= |ds| && forall d :: d in ds ==> d.1.outcome != Rejected
    ensures Deliveries(Numbered(ds)[..n]) == ds[..n]
  {
    if n > 0 {
      NothingRejected(ds, n - 1);
      var rows := Numbered(ds)[..n];
      assert rows[..n - 1] == Numbered(ds)[..n - 1];
      assert ds[n - 1] in ds;
    }
  }

  ghost predicate Deliverable(result: seq<Delivery>) {
    forall d :: d in result ==> Applicable(d.0, d.1)
  }

  lemma PageHasNoError(result: seq<Delivery>, n: nat, m: nat)
    requires n <= m <= |result| && Deliverable(result)
    ensures FirstError(Numbered(result)[n..m], n, |result|) == None
  {
    var page := Numbered(result)[n..m];
    forall j | 0 <= j < |page| ensures RowError(page[j], n + 1 + j, |result|) == None {
      assert result[n + j] in result;
      ApplicableAnywhere(result[n + j].0, result[n + j].1, n + 1 + j, |result|);
    }
    ContiguousPageIsAccepted(page, n, |result|);
  }

  lemma CleanPageApplies(db: Db, id: nat, i: nat, page: seq<Row>)
    requires FindBulk(db.bulks, id) == Some(i) && db.bulks[i].state in {ResultReady, ApplyingResult}
    requires page != [] && FirstError(page, db.bulks[i].appliedThrough, db.bulks[i].artifact.entryCount) == None
    ensures ApplyRows(db, id, page).Success?
  {
  }

  predicate Open(item: BulkItem) {
    item.state in {ResultReady, ApplyingResult}
  }

  lemma PageTransacts(before: Db, id: nat, i: nat, page: seq<Row>, after: Db)
    requires FindBulk(before.bulks, id) == Some(i) && Open(before.bulks[i]) && page != []
    requires FirstError(page, before.bulks[i].appliedThrough, before.bulks[i].artifact.entryCount) == None
    requires PageApplied(before, i, page) == after
    ensures Transact(before, id, Page(page)) == after
  {
    CleanPageApplies(before, id, i, page);
    AcceptedAs(before, id, i, page, after);
  }

  /** The rows after `k` up to `n`, offered at the cursor `k`. */
  lemma PageApplies(start: Db, id: nat, i: nat, result: seq<Delivery>, k: nat, n: nat, item: BulkItem)
    requires FindBulk(start.bulks, id) == Some(i) && Deliverable(result) && Open(item)
    requires k < n <= |result| && SameItem(start.bulks[i], item, k) && item.artifact.entryCount == |result|
    ensures Transact(Folded(start, i, result, k, item), id, Page(Numbered(result)[k..n]))
         == Folded(start, i, result, n, item.(appliedThrough := n, state := ApplyingResult))
  {
    FindBulkAfterUpdate(start.bulks, id, i, item);
    PageHasNoError(result, k, n);
    FoldMoves(start, i, result, k, n, item);
    PageTransacts(Folded(start, i, result, k, item), id, i, Numbered(result)[k..n],
                  Folded(start, i, result, n, item.(appliedThrough := n, state := ApplyingResult)));
  }

  function PagesOf(pages: seq<seq<Row>>): seq<Action> {
    seq(|pages|, j requires 0 <= j < |pages| => Page(pages[j]))
  }

  lemma PagesSnoc(pages: seq<seq<Row>>, page: seq<Row>)
    ensures PagesOf(pages + [page]) == PagesOf(pages) + [Page(page)]
  {
  }

  /** The item after some pages, the last of which ends at row `n`. */
  function Moved(item: BulkItem, pages: seq<seq<Row>>, n: nat): BulkItem {
    if pages == [] then item else item.(appliedThrough := n, state := ApplyingResult)
  }

  /** The last of several consecutive pages. */
  lemma LastPage<T>(front: seq<seq<T>>, page: seq<T>, rows: seq<T>, k: nat, n: nat)
    requires k <= n <= |rows| && Splitting.Flatten(front + [page]) == rows[k..n]
    ensures |page| <= n - k && Splitting.Flatten(front) == rows[k..n - |page|] && page == rows[n - |page|..n]
  {
    Splitting.FlattenSnoc(front, page);
    var m := n - |page|;
    assert |rows[k..n]| == |Splitting.Flatten(front)| + |page|;
    assert Splitting.Flatten(front) == (Splitting.Flatten(front) + page)[..m - k] == rows[k..n][..m - k] == rows[k..m];
    assert page == (Splitting.Flatten(front) + page)[m - k..] == rows[k..n][m - k..] == rows[m..n];
  }

  lemma PagesStep(base: Db, id: nat, front: seq<seq<Row>>, page: seq<Row>, before: Db, after: Db)
    requires TransactAll(base, id, PagesOf(front)) == before && Transact(before, id, Page(page)) == after
    ensures TransactAll(base, id, PagesOf(front + [page])) == after
  {
    PagesSnoc(front, page);
    TransactSnoc(base, id, PagesOf(front), Page(page));
  }

  /** Consecutive pages with exactly the rows after `k` up to `n`. */
  ghost predicate Covers(pages: seq<seq<Row>>, result: seq<Delivery>, k: nat, n: nat) {
    && k <= n <= |result| && Splitting.Flatten(pages) == Numbered(result)[k..n]
    && forall page :: page in pages ==> page != []
  }

  /** The page has exactly the rows after `mid` up to `n`. */
  ghost predicate PageOf(page: seq<Row>, result: seq<Delivery>, mid: nat, n: nat) {
    mid < n <= |result| && page == Numbered(result)[mid..n]
  }

  lemma CoversFront(front: seq<seq<Row>>, page: seq<Row>, result: seq<Delivery>, k: nat, n: nat) returns (mid: nat)
    requires Covers(front + [page], result, k, n)
    ensures k <= mid && PageOf(page, result, mid, n)
    ensures Covers(front, result, k, mid) && (front == [] ==> mid == k)
  {
    LastPage(front, page, Numbered(result), k, n);
    mid := n - |page|;
    assert page in front + [page];
    assert forall p :: p in front ==> p in front + [page];
    assert front == [] ==> |Numbered(result)[k..mid]| == 0;
  }

  lemma CoversNothing(result: seq<Delivery>, k: nat, n: nat)
    requires Covers([], result, k, n)
    ensures n == k
  {
    assert |Numbered(result)[k..n]| == 0;
  }

  lemma MovedStays(base: BulkItem, item: BulkItem, front: seq<seq<Row>>, page: seq<Row>, mid: nat, n: nat)
    requires SameItem(base, item, item.appliedThrough) && Open(item) && (front == [] ==> mid == item.appliedThrough)
    ensures var moved := Moved(item, front, mid);
            && SameItem(base, moved, mid) && Open(moved) && moved.artifact == item.artifact
            && Moved(item, front + [page], n) == moved.(appliedThrough := n, state := ApplyingResult)
  {
    assert |front + [page]| == |front| + 1;
  }

  /** The next page, applied to what the front has left. */
  lemma MovedPageApplies(start: Db, id: nat, i: nat, result: seq<Delivery>, page: seq<Row>, moved: BulkItem,
                         mid: nat, n: nat)
    requires FindBulk(start.bulks, id) == Some(i) && Deliverable(result) && Open(moved)
    requires SameItem(start.bulks[i], moved, mid) && moved.artifact.entryCount == |result|
    requires PageOf(page, result, mid, n)
    ensures Transact(Folded(start, i, result, mid, moved), id, Page(page))
         == Folded(start, i, result, n, moved.(appliedThrough := n, state := ApplyingResult))
  {
    PageApplies(start, id, i, result, mid, n, moved);
  }

  /** One page more. */
  lemma NextPageApplies(start: Db, id: nat, i: nat, result: seq<Delivery>, front: seq<seq<Row>>, page: seq<Row>,
                        item: BulkItem, mid: nat, n: nat)
    requires FindBulk(start.bulks, id) == Some(i) && Deliverable(result) && Open(item)
    requires SameItem(start.bulks[i], item, item.appliedThrough) && item.artifact.entryCount == |result|
    requires item.appliedThrough <= mid && PageOf(page, result, mid, n) && (front == [] ==> mid == item.appliedThrough)
    requires TransactAll(Folded(start, i, result, item.appliedThrough, item), id, PagesOf(front))
          == Folded(start, i, result, mid, Moved(item, front, mid))
    ensures TransactAll(Folded(start, i, result, item.appliedThrough, item), id, PagesOf(front + [page]))
         == Folded(start, i, result, n, Moved(item, front + [page], n))
  {
    var moved := Moved(item, front, mid);
    MovedStays(start.bulks[i], item, front, page, mid, n);
    MovedPageApplies(start, id, i, result, page, moved, mid, n);
    PagesStep(Folded(start, i, result, item.appliedThrough, item), id, front, page,
              Folded(start, i, result, mid, moved), Folded(start, i, result, n, Moved(item, front + [page], n)));
  }

  /** Pages that cover a deliverable result from the cursor on are all accepted,
      whatever their sizes. */
  lemma {:induction false} PagesAllApply(start: Db, id: nat, i: nat, result: seq<Delivery>, pages: seq<seq<Row>>,
                                         item: BulkItem, n: nat)
    requires FindBulk(start.bulks, id) == Some(i) && Deliverable(result) && Open(item)
    requires SameItem(start.bulks[i], item, item.appliedThrough) && item.artifact.entryCount == |result|
    requires Covers(pages, result, item.appliedThrough, n)
    ensures TransactAll(Folded(start, i, result, item.appliedThrough, item), id, PagesOf(pages))
         == Folded(start, i, result, n, Moved(item, pages, n))
    decreases |pages|
  {
    var k := item.appliedThrough;
    if pages == [] {
      CoversNothing(result, k, n);
    } else {
      var front, page := pages[..|pages| - 1], pages[|pages| - 1];
      assert pages == front + [page];
      var mid := CoversFront(front, page, result, k, n);
      PagesAllApply(start, id, i, result, front, item, mid);
      NextPageApplies(start, id, i, result, front, page, item, mid, n);
    }
  }

  // ---------- queueing, delivering and completing ----------

  /** An item was newly queued for these pending batches, and the server answered
      every entry of them with an accepted outcome. */
  ghost predicate Queues(db: Db, snapshot: nat, artifact: Artifact, batches: seq<Batch>, responses: seq<Response>) {
    && |batches| == |responses| && UniqueRows(db.outbox, db.nextId)
    && (forall k :: 0 <= k < |batches| ==> AllAccepted(batches[k], responses[k]))
    && (forall b :: b in batches ==> b in db.outbox && b.state == Pending)
    && FindSnapshot(db.bulks, snapshot).None? && artifact.entryCount == |EntriesOf(batches)|
    && QueueBulk(db, snapshot, artifact, IdList(batches)).Success?
  }

  function Queued(db: Db, snapshot: nat, artifact: Artifact, batches: seq<Batch>): Db {
    var r := QueueBulk(db, snapshot, artifact, IdList(batches));
    if r.Success? then r.value.0 else db
  }

  function NewItem(db: Db, snapshot: nat, artifact: Artifact, batches: seq<Batch>): BulkItem {
    BulkItem(db.nextId, snapshot, artifact, Prepared, None, None, 0, false, 0, Dedup(IdList(batches)))
  }

  lemma QueuedItem(db: Db, snapshot: nat, artifact: Artifact, batches: seq<Batch>, responses: seq<Response>)
    requires Queues(db, snapshot, artifact, batches, responses)
    ensures Queued(db, snapshot, artifact, batches)
         == db.(bulks := db.bulks + [NewItem(db, snapshot, artifact, batches)], nextId := db.nextId + 1)
    ensures FindBulk(Queued(db, snapshot, artifact, batches).bulks, db.nextId) == Some(|db.bulks|)
    ensures artifact.entryCount != 0
  {
  }

  lemma CapturedIds(db: Db, batches: seq<Batch>)
    requires forall b :: b in batches ==> b in db.outbox
    ensures SetOf(Dedup(IdList(batches))) == IdsOf(batches) && IdsOf(batches) <= IdsOf(db.outbox)
  {
    forall id ensures id in SetOf(Dedup(IdList(batches))) <==> id in IdsOf(batches) {
      if id in IdsOf(batches) {
        var b :| b in batches && b.id == id;
        var k :| 0 <= k < |batches| && batches[k] == b;
        assert IdList(batches)[k] == id;
      }
    }
    forall b | b in batches ensures b.id in IdsOf(db.outbox) { assert b in db.outbox; }
  }

  /** Completing an item is accepted only with its whole result folded in. */
  lemma CompletedFold(start: Db, id: nat, i: nat, result: seq<Delivery>, n: nat, item: BulkItem)
    requires FindBulk(start.bulks, id) == Some(i) && n <= |result| && SameItem(start.bulks[i], item, n)
    requires item.artifact.entryCount == |result|
    ensures var done := CompleteBulk(Folded(start, i, result, n, item), id);
            && (done.Success? <==> item.serverStatus == Some(Succeeded) && n == |result|
                                   && SetOf(item.captured) <= IdsOf(start.outbox))
            && (done.Success? ==>
                  && StoreOf(done.value) == DeliverAll(start.source, StoreOf(start), Deliveries(Numbered(result)))
                  && done.value.outbox == DiscardPending(start.outbox, SetOf(item.captured))
                  && done.value.bulks == start.bulks[i := item.(state := Applied)])
  {
    FindBulkAfterUpdate(start.bulks, id, i, item);
    ReplaceTwice(start.bulks, i, item, item.(state := Applied));
    assert Numbered(result)[..|result|] == Numbered(result);
  }

  /** The database a completed item leaves is the one the batch path leaves. */
  ghost predicate SameOutcome(bulk: Db, batch: Db) {
    bulk.known == batch.known && bulk.desc == batch.desc && PendingOf(bulk.outbox) == PendingOf(batch.outbox)
  }

  lemma DeliveredAlike(db: Db, batches: seq<Batch>, responses: seq<Response>, bulk: Db)
    requires |batches| == |responses| && UniqueRows(db.outbox, db.nextId)
    requires forall k :: 0 <= k < |batches| ==> AllAccepted(batches[k], responses[k])
    requires forall b :: b in batches ==> b in db.outbox && b.state == Pending
    requires StoreOf(bulk) == DeliverAll(db.source, StoreOf(db), ZipAll(batches, responses))
    requires bulk.outbox == DiscardPending(db.outbox, IdsOf(batches))
    ensures SameOutcome(bulk, AcknowledgeAll(db, batches, responses))
  {
    AllAreClean(batches, responses);
    AcceptedAllIsZip(batches, responses);
    AcknowledgeAllDelivers(db, batches, responses);
    CapturedArePending(db, batches);
    SamePending(DiscardPending(db.outbox, IdsOf(batches)), MarkSent(db.outbox, IdsOf(batches)));
  }

  lemma WholeResult(batches: seq<Batch>, responses: seq<Response>)
    requires |batches| == |responses| && forall k :: 0 <= k < |batches| ==> AllAccepted(batches[k], responses[k])
    ensures var result := ZipAll(batches, responses);
            && Deliveries(Numbered(result)) == result && |result| == |EntriesOf(batches)| && Deliverable(result)
  {
    var result := ZipAll(batches, responses);
    ZipAllShape(batches, responses);
    NothingRejected(result, |result|);
    assert Numbered(result)[..|result|] == Numbered(result) && result[..|result|] == result;
  }

  /** The bulk path refines the batch path.  A newly queued item, after any bindings,
      statuses, saved results, failures and pages of the result in any order, can be
      completed only in a way that leaves the same known occurrences, the same
      description tables and the same pending batches as acknowledging the captured
      batches one by one. */
  lemma BulkRefinesBatches(db: Db, snapshot: nat, artifact: Artifact, batches: seq<Batch>, responses: seq<Response>,
                           actions: seq<Action>)
    requires Queues(db, snapshot, artifact, batches, responses)
    requires AllReadFrom(actions, ZipAll(batches, responses))
    ensures var queued := Queued(db, snapshot, artifact, batches);
            var done := CompleteBulk(TransactAll(queued, db.nextId, actions), db.nextId);
            done.Success? ==> SameOutcome(done.value, AcknowledgeAll(db, batches, responses))
  {
    var start, result, i := Queued(db, snapshot, artifact, batches), ZipAll(batches, responses), |db.bulks|;
    QueuedItem(db, snapshot, artifact, batches, responses);
    WholeResult(batches, responses);
    NothingFolded(start, i, result, start.bulks[i]);
    var n, item := CursorIsExact(start, db.nextId, i, result, 0, start.bulks[i], actions);
    CompletedFold(start, db.nextId, i, result, n, item);
    CapturedIds(db, batches);
    var done := CompleteBulk(TransactAll(start, db.nextId, actions), db.nextId);
    if done.Success? { DeliveredAlike(db, batches, responses, done.value); }
  }

  /** Binding the import, learning that it succeeded and saving its result. */
  function Prelude(serverImport: nat, status: ImportStatus): seq<Action> {
    [Bind(serverImport, status), Report(Succeeded, None), Save]
  }

  function Ready(item: BulkItem, serverImport: nat): BulkItem {
    item.(serverImport := Some(serverImport), serverStatus := Some(Succeeded),
          state := ResultReady, resultSaved := true)
  }

  lemma BindsNew(db: Db, id: nat, i: nat, serverImport: nat, status: ImportStatus)
    requires FindBulk(db.bulks, id) == Some(i) && db.bulks[i].serverImport.None?
    ensures Transact(db, id, Bind(serverImport, status)) == db.(bulks := db.bulks[i :=
              db.bulks[i].(serverImport := Some(serverImport), serverStatus := Some(status), state := At(status))])
  {
  }

  lemma ReportsSuccess(db: Db, id: nat, i: nat)
    requires FindBulk(db.bulks, id) == Some(i)
    ensures Transact(db, id, Report(Succeeded, None))
         == db.(bulks := db.bulks[i := db.bulks[i].(serverStatus := Some(Succeeded), state := At(Succeeded))])
  {
  }

  lemma SavesResult(db: Db, id: nat, i: nat)
    requires FindBulk(db.bulks, id) == Some(i)
    requires db.bulks[i].serverImport.Some? && db.bulks[i].serverStatus == Some(Succeeded)
    ensures Transact(db, id, Save)
            == db.(bulks := db.bulks[i := db.bulks[i].(state := ResultReady, resultSaved := true)])
  {
  }

  lemma PreludeReadies(db: Db, id: nat, i: nat, serverImport: nat, status: ImportStatus)
    requires FindBulk(db.bulks, id) == Some(i) && db.bulks[i].serverImport.None?
    ensures TransactAll(db, id, Prelude(serverImport, status))
         == db.(bulks := db.bulks[i := Ready(db.bulks[i], serverImport)])
  {
    var bound := db.bulks[i].(serverImport := Some(serverImport), serverStatus := Some(status), state := At(status));
    var reported := bound.(serverStatus := Some(Succeeded), state := At(Succeeded));
    var db1, db2 := db.(bulks := db.bulks[i := bound]), db.(bulks := db.bulks[i := reported]);
    BindsNew(db, id, i, serverImport, status);
    FindBulkAfterUpdate(db.bulks, id, i, bound);
    ReportsSuccess(db1, id, i);
    ReplaceTwice(db.bulks, i, bound, reported);
    FindBulkAfterUpdate(db.bulks, id, i, reported);
    SavesResult(db2, id, i);
    ReplaceTwice(db.bulks, i, reported, Ready(db.bulks[i], serverImport));
    ThreeActions(db, id, Bind(serverImport, status), Report(Succeeded, None), Save);
  }

  lemma ThreeActions(db: Db, id: nat, a: Action, b: Action, c: Action)
    ensures TransactAll(db, id, [a, b, c]) == Transact(Transact(Transact(db, id, a), id, b), id, c)
  {
    assert [a, b, c] == [] + [a] + [b] + [c];
    TransactSnoc(db, id, [], a);
    TransactSnoc(db, id, [] + [a], b);
    TransactSnoc(db, id, [] + [a] + [b], c);
  }

  lemma AllPagesFold(start: Db, id: nat, i: nat, result: seq<Delivery>, serverImport: nat, status: ImportStatus,
                     pages: seq<seq<Row>>)
    requires FindBulk(start.bulks, id) == Some(i) && Deliverable(result) && result != []
    requires start.bulks[i].serverImport.None? && start.bulks[i].appliedThrough == 0
    requires start.bulks[i].artifact.entryCount == |result|
    requires Splitting.Flatten(pages) == Numbered(result) && forall page :: page in pages ==> page != []
    ensures TransactAll(start, id, Prelude(serverImport, status) + PagesOf(pages))
         == Folded(start, i, result, |result|, Moved(Ready(start.bulks[i], serverImport), pages, |result|))
    ensures pages != []
  {
    var ready := Ready(start.bulks[i], serverImport);
    PreludeReadies(start, id, i, serverImport, status);
    NothingFolded(start, i, result, ready);
    assert Numbered(result)[0..|result|] == Numbered(result);
    PagesAllApply(start, id, i, result, pages, ready, |result|);
    TransactConcat(start, id, Prelude(serverImport, status), PagesOf(pages));
  }

  /** Such a completion exists: bound, succeeded, saved, and read in consecutive pages
      of any sizes, the item is completed and the outcome is that of the batch path. */
  lemma BulkPathCompletes(db: Db, snapshot: nat, artifact: Artifact, batches: seq<Batch>, responses: seq<Response>,
                          serverImport: nat, status: ImportStatus, pages: seq<seq<Row>>)
    requires Queues(db, snapshot, artifact, batches, responses)
    requires Splitting.Flatten(pages) == Numbered(ZipAll(batches, responses))
    requires forall page :: page in pages ==> page != []
    ensures var actions := Prelude(serverImport, status) + PagesOf(pages);
            var queued := Queued(db, snapshot, artifact, batches);
            var done := CompleteBulk(TransactAll(queued, db.nextId, actions), db.nextId);
            && done.Success? && SameOutcome(done.value, AcknowledgeAll(db, batches, responses))
            && |db.bulks| < |done.value.bulks| && done.value.bulks[|db.bulks|].state == Applied
  {
    var start, i := Queued(db, snapshot, artifact, batches), |db.bulks|;
    var result := ZipAll(batches, responses);
    var item := Moved(Ready(NewItem(db, snapshot, artifact, batches), serverImport), pages, |result|);
    QueuedItem(db, snapshot, artifact, batches, responses);
    WholeResult(batches, responses);
    AllPagesFold(start, db.nextId, i, result, serverImport, status, pages);
    CapturedIds(db, batches);
    CompletedFold(start, db.nextId, i, result, |result|, item);
    DeliveredAlike(db, batches, responses, CompleteBulk(Folded(start, i, result, |result|, item), db.nextId).value);
  }

  lemma CapturedArePending(db: Db, batches: seq<Batch>)
    requires UniqueRows(db.outbox, db.nextId)
    requires forall b :: b in batches ==> b in db.outbox && b.state == Pending
    ensures forall i :: 0 <= i < |db.outbox| && db.outbox[i].id in IdsOf(batches) ==> db.outbox[i].state == Pending
  {
    forall i | 0 <= i < |db.outbox| && db.outbox[i].id in IdsOf(batches)
      ensures db.outbox[i].state == Pending
    {
      var b :| b in batches && b.id == db.outbox[i].id;
      var j :| 0 <= j < |db.outbox| && db.outbox[j] == b;
    }
  }
}
