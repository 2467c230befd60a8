/** How the outbox transactions change what waits, what is noted as refused, and
    the rows that bulk items captured. */
module SyncTables {
  import opened Manifest
  import opened Outbox
  import opened SyncProtocol
  import opened SyncInvariant
  import Splitting

  /** A row stays in place with its identity, key, reliability and entries. */
  ghost predicate SameRow(a: Batch, b: Batch) {
    a.id == b.id && a.key == b.key && a.reliable == b.reliable && a.entries == b.entries
  }

  /** The table keeps its rows in place, and new rows have fresh identifiers. */
  ghost predicate Extends(outbox: seq<Batch>, after: seq<Batch>, nextId: nat) {
    && |outbox| <= |after|
    && (forall i :: 0 <= i < |outbox| ==> SameRow(outbox[i], after[i]))
    && (forall i :: |outbox| <= i < |after| ==> after[i].id >= nextId)
  }

  lemma {:induction false} EntriesAtStable(outbox: seq<Batch>, after: seq<Batch>, nextId: nat, id: nat)
    requires Extends(outbox, after, nextId) && id < nextId
    ensures EntriesAt(after, id) == EntriesAt(outbox, id)
    decreases |after|
  {
    if after != [] {
      var front := after[..|after| - 1];
      if |after| > |outbox| {
        EntriesAtStable(outbox, front, nextId, id);
      } else {
        EntriesAtStable(outbox[..|after| - 1], front, nextId, id);
        assert SameRow(outbox[|after| - 1], after[|after| - 1]);
      }
    }
  }

  lemma {:induction false} RowsStable(outbox: seq<Batch>, after: seq<Batch>, nextId: nat, captured: seq<nat>)
    requires Extends(outbox, after, nextId) && forall id :: id in captured ==> id < nextId
    ensures RowsOf(after, captured) == RowsOf(outbox, captured)
  {
    if captured != [] {
      var front := captured[..|captured| - 1];
      forall id | id in front ensures id < nextId { assert id in captured; }
      RowsStable(outbox, after, nextId, front);
      assert captured[|captured| - 1] in captured;
      EntriesAtStable(outbox, after, nextId, captured[|captured| - 1]);
    }
  }

  lemma {:induction false} EntriesAtRow(outbox: seq<Batch>, i: nat)
    requires i < |outbox| && forall j, k :: 0 <= j < k < |outbox| ==> outbox[j].id != outbox[k].id
    ensures EntriesAt(outbox, outbox[i].id) == outbox[i].entries
  {
    if i < |outbox| - 1 {
      EntriesAtRow(outbox[..|outbox| - 1], i);
    }
  }

  lemma {:induction false} RowsMembers(outbox: seq<Batch>, captured: seq<nat>, e: Entry)
    ensures e in RowsOf(outbox, captured) <==> exists id :: id in captured && e in EntriesAt(outbox, id)
  {
    if captured != [] {
      var front, last := captured[..|captured| - 1], captured[|captured| - 1];
      RowsMembers(outbox, front, e);
      assert captured == front + [last];
      if e in RowsOf(outbox, captured) {
        if e in RowsOf(outbox, front) {
          var id :| id in front && e in EntriesAt(outbox, id);
          assert id in captured;
        } else {
          assert e in EntriesAt(outbox, last) && last in captured;
        }
      }
      if id :| id in captured && e in EntriesAt(outbox, id) {
        assert id in front || id == last;
      }
    }
  }

  /** The captured rows of pending batches are waiting. */
  lemma CapturedWait(outbox: seq<Batch>, nextId: nat, captured: seq<nat>)
    requires UniqueRows(outbox, nextId) && SyncProtocol.AllPending(outbox, captured)
    ensures forall e :: e in RowsOf(outbox, captured) ==> e in Waiting(outbox)
  {
    forall e | e in RowsOf(outbox, captured) ensures e in Waiting(outbox) {
      RowsMembers(outbox, captured, e);
      var id :| id in captured && e in EntriesAt(outbox, id);
      var b :| b in outbox && b.id == id && b.state == Pending;
      var i :| 0 <= i < |outbox| && outbox[i] == b;
      EntriesAtRow(outbox, i);
    }
  }

  /** What a captured batch carries is among the captured rows. */
  lemma CapturedRow(outbox: seq<Batch>, nextId: nat, captured: seq<nat>, b: Batch, e: Entry)
    requires UniqueRows(outbox, nextId) && b in outbox && b.id in captured && e in b.entries
    ensures e in RowsOf(outbox, captured)
  {
    var i :| 0 <= i < |outbox| && outbox[i] == b;
    EntriesAtRow(outbox, i);
    RowsMembers(outbox, captured, e);
  }

  lemma {:induction false} EntriesMembers(bs: seq<Batch>)
    ensures forall e :: e in EntriesOf(bs) <==> exists b :: b in bs && e in b.entries
  {
    if bs != [] {
      EntriesMembers(bs[..|bs| - 1]);
      assert bs == bs[..|bs| - 1] + [bs[|bs| - 1]];
    }
  }

  /** What waits is what the pending batches carry. */
  lemma WaitingIsPending(outbox: seq<Batch>)
    ensures forall e :: e in Waiting(outbox) <==> e in EntriesOf(PendingOf(outbox))
  {
    PendingMembers(outbox);
    EntriesMembers(PendingOf(outbox));
  }

  // ---------- the tables part of the invariant ----------

  lemma ExtensionKeepsItems(db: Db, after: seq<Batch>, nextId: nat)
    requires ItemsOk(db) && Extends(db.outbox, after, db.nextId) && nextId >= db.nextId
    ensures ItemsOk(db.(outbox := after, nextId := nextId))
  {
    var db' := db.(outbox := after, nextId := nextId);
    forall i | 0 <= i < |db'.bulks| ensures ItemOk(db', db'.bulks[i]) {
      assert ItemOk(db, db.bulks[i]);
      RowsStable(db.outbox, after, db.nextId, db.bulks[i].captured);
    }
  }

  lemma ExtensionKeepsImports(db: Db, imports: seq<Import>, after: seq<Batch>, nextId: nat)
    requires ItemsOk(db) && ImportsOk(db, imports) && Extends(db.outbox, after, db.nextId) && nextId >= db.nextId
    ensures ImportsOk(db.(outbox := after, nextId := nextId), imports)
  {
    var db' := db.(outbox := after, nextId := nextId);
    forall i | 0 <= i < |db'.bulks| ensures BindingOk(db', db'.bulks[i], imports) {
      assert ItemOk(db, db.bulks[i]) && BindingOk(db, db.bulks[i], imports);
      RowsStable(db.outbox, after, db.nextId, db.bulks[i].captured);
    }
  }

  lemma FewerWaitingKeepsFunctional(outbox: seq<Batch>, after: seq<Batch>)
    requires Functional(outbox) && Waiting(after) <= Waiting(outbox)
    ensures Functional(after)
  {
  }

  lemma SameRowsKeepUnique(outbox: seq<Batch>, after: seq<Batch>, nextId: nat)
    requires UniqueRows(outbox, nextId) && |after| == |outbox|
    requires forall i :: 0 <= i < |outbox| ==> SameRow(outbox[i], after[i])
    ensures UniqueRows(after, nextId)
  {
    forall b | b in after ensures b.id < nextId && b.key.scan < nextId {
      var i :| 0 <= i < |after| && after[i] == b;
      assert SameRow(outbox[i], after[i]) && outbox[i] in outbox;
    }
    forall i, j | 0 <= i < j < |after| ensures after[i].id != after[j].id && after[i].key != after[j].key {
      assert SameRow(outbox[i], after[i]) && SameRow(outbox[j], after[j]);
    }
  }

  /** A row leaves the pending state: it is resolved with the given failures. */
  ghost predicate Resolves(outbox: seq<Batch>, after: seq<Batch>, b: Batch, state: BatchState, failures: seq<Entry>) {
    && |after| == |outbox| && b in outbox && b.state == Pending && state != Pending
    && (forall i :: 0 <= i < |outbox| ==>
          after[i] == if outbox[i] == b then b.(state := state, failures := failures) else outbox[i])
  }

  lemma ResolvedTables(outbox: seq<Batch>, after: seq<Batch>, b: Batch, state: BatchState, failures: seq<Entry>)
    requires Resolves(outbox, after, b, state, failures)
    ensures forall i :: 0 <= i < |outbox| ==> SameRow(outbox[i], after[i])
    ensures forall c :: c in after && c.state == Pending ==> c in outbox && c != b
    ensures forall e :: e in Waiting(outbox) ==> e in Waiting(after) || e in b.entries
    ensures Waiting(after) <= Waiting(outbox)
    ensures Noted(outbox) <= Noted(after)
    ensures state == Failed ==> forall e :: e in failures ==> e in Noted(after)
  {
    var at :| 0 <= at < |outbox| && outbox[at] == b;
    assert after[at] == b.(state := state, failures := failures);
    forall c | c in outbox && c != b ensures c in after {
      var i :| 0 <= i < |outbox| && outbox[i] == c;
      assert after[i] == c;
    }
    forall c | c in after && c.state == Pending ensures c in outbox && c != b {
      var i :| 0 <= i < |after| && after[i] == c;
    }
  }

  lemma UniqueById(outbox: seq<Batch>, nextId: nat, b: Batch)
    requires UniqueRows(outbox, nextId) && b in outbox
    ensures forall i :: 0 <= i < |outbox| ==> (outbox[i].id == b.id <==> outbox[i] == b)
  {
    var at :| 0 <= at < |outbox| && outbox[at] == b;
  }

  // ---------- queueing and splitting ----------

  lemma NewRowsExtend(outbox: seq<Batch>, nextId: nat, payloads: seq<Payload>)
    requires UniqueRows(outbox, nextId)
    ensures var after := outbox + NewBatches(nextId, nextId + 1, payloads);
            Extends(outbox, after, nextId) && UniqueRows(after, nextId + 1 + |payloads|)
  {
    var rows := NewBatches(nextId, nextId + 1, payloads);
    var after := outbox + rows;
    forall i | 0 <= i < |after|
      ensures i < |outbox| ==> after[i].id < nextId && after[i].key.scan < nextId
      ensures i >= |outbox| ==> after[i] == rows[i - |outbox|]
    {
      if i < |outbox| { assert outbox[i] in outbox; }
    }
    forall b | b in after ensures b.id < nextId + 1 + |payloads| && b.key.scan < nextId + 1 + |payloads| {
      var i :| 0 <= i < |after| && after[i] == b;
    }
  }

  lemma SplitExtends(db: Db, size: nat)
    requires size > 0 && UniqueRows(db.outbox, db.nextId)
    ensures Extends(db.outbox, Split(db, size).outbox, db.nextId) && Split(db, size).nextId >= db.nextId
  {
    Splitting.SplitShape(db, size);
    var after := Split(db, size).outbox;
    forall i | 0 <= i < |db.outbox| ensures SameRow(db.outbox[i], after[i]) {
      Splitting.SplitOldRow(db, size, i);
    }
    forall i | |db.outbox| <= i < |after| ensures after[i].id >= db.nextId {
      Splitting.SplitRow(db, size, i);
    }
  }

  lemma SplitKeepsWaiting(db: Db, size: nat)
    requires size > 0 && UniqueRows(db.outbox, db.nextId)
    ensures Waiting(Split(db, size).outbox) == Waiting(db.outbox)
  {
    var before, after := EntriesOf(PendingOf(db.outbox)), EntriesOf(PendingOf(Split(db, size).outbox));
    Splitting.SplitConservesPending(db, size);
    WaitingIsPending(db.outbox);
    WaitingIsPending(Split(db, size).outbox);
    SameMembers(before, after);
  }

  lemma SameMembers(a: seq<Entry>, b: seq<Entry>)
    requires multiset(a) == multiset(b)
    ensures forall e :: e in a <==> e in b
  {
    forall e ensures e in a <==> e in b {
      assert e in a <==> e in multiset(a);
    }
  }

  lemma SplitKeepsNoted(db: Db, size: nat)
    requires size > 0 && UniqueRows(db.outbox, db.nextId)
    ensures Noted(db.outbox) <= Noted(Split(db, size).outbox)
  {
    var after := Split(db, size).outbox;
    forall b | b in db.outbox && b.state == Failed ensures b in after {
      var i :| 0 <= i < |db.outbox| && db.outbox[i] == b;
      Splitting.SplitOldRow(db, size, i);
      assert after[i] == b;
    }
  }

  /** The rows a split adds have keys that no request has used. */
  lemma SplitAddsFreshKeys(db: Db, size: nat)
    requires size > 0 && UniqueRows(db.outbox, db.nextId)
    ensures forall b :: b in Split(db, size).outbox && b.state == Pending ==> b in db.outbox || b.key.scan >= db.nextId
  {
    var after := Split(db, size).outbox;
    forall b | b in after && b.state == Pending ensures b in db.outbox || b.key.scan >= db.nextId {
      var i :| 0 <= i < |after| && after[i] == b;
      if i < |db.outbox| {
        Splitting.SplitOldRow(db, size, i);
      } else {
        Splitting.SplitRow(db, size, i);
      }
    }
  }
}
