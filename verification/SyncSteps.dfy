/** Every step of the engine and of the server keeps the invariant. */
module SyncSteps {
  import opened Options
  import opened Manifest
  import opened Outbox
  import opened SyncProtocol
  import opened SyncInvariant

  // ---------- updating one bulk item ----------

  lemma {:induction false} FindHeld(bulks: seq<BulkItem>, h: nat)
    requires h < |bulks| && forall i, j :: 0 <= i < j < |bulks| ==> bulks[i].id != bulks[j].id
    ensures FindBulk(bulks, bulks[h].id) == Some(h)
  {
    if h < |bulks| - 1 {
      FindHeld(bulks[..|bulks| - 1], h);
    }
  }

  lemma ItemUpdateKeepsTables(db: Db, h: nat, item: BulkItem)
    requires TablesOk(db) && h < |db.bulks|
    requires item.id == db.bulks[h].id && item.snapshot == db.bulks[h].snapshot && item.captured == db.bulks[h].captured
    ensures TablesOk(db.(bulks := db.bulks[h := item]))
  {
    var after := db.(bulks := db.bulks[h := item]);
    forall i | 0 <= i < |after.bulks| ensures ItemOk(after, after.bulks[i]) {
      assert ItemOk(db, db.bulks[i]);
    }
  }

  lemma ItemUpdateKeepsImports(db: Db, imports: seq<Import>, h: nat, item: BulkItem)
    requires ImportsOk(db, imports) && h < |db.bulks|
    requires item.snapshot == db.bulks[h].snapshot && item.captured == db.bulks[h].captured
    requires item.serverImport != db.bulks[h].serverImport ==>
               item.serverImport.Some? && item.serverImport.value < |imports|
               && imports[item.serverImport.value].snapshot == item.snapshot
    ensures ImportsOk(db.(bulks := db.bulks[h := item]), imports)
  {
    var after := db.(bulks := db.bulks[h := item]);
    forall i | 0 <= i < |after.bulks| ensures BindingOk(after, after.bulks[i], imports) {
      assert BindingOk(db, db.bulks[i], imports);
    }
  }

  /** When the hot item's import is not running, no import is. */
  lemma NothingLive(w: World, h: int)
    requires SubmissionsOk(w.db.bulks, w.server.imports) && HotClient(w.db, h)
    requires (h >= 0 && w.db.bulks[h].serverImport.Some? && w.db.bulks[h].serverImport.value < |w.server.imports|)
             ==> !Live(StatusOf(w, h))
    ensures forall k :: 0 <= k < |w.server.imports| ==> !Live(w.server.imports[k].status)
  {
  }

  lemma ItemUpdateKeepsSubmissions(bulks: seq<BulkItem>, imports: seq<Import>, h: nat, item: BulkItem)
    requires SubmissionsOk(bulks, imports) && h < |bulks|
    requires bulks[h].serverImport.Some? ==> item.serverImport == bulks[h].serverImport
    requires (Terminal(item.state) && bulks[h].serverImport.Some? && bulks[h].serverImport.value < |imports|)
             ==> !Live(imports[bulks[h].serverImport.value].status)
    ensures SubmissionsOk(bulks[h := item], imports)
  {
    var after := bulks[h := item];
    forall k | 0 <= k < |imports| && (Live(imports[k].status) || imports[k].merged)
      ensures exists i :: 0 <= i < |after| && BoundTo(after[i], k, Live(imports[k].status))
    {
      var i :| 0 <= i < |bulks| && BoundTo(bulks[i], k, Live(imports[k].status));
      assert BoundTo(after[i], k, Live(imports[k].status));
    }
  }

  // ---------- the two inventories ----------

  lemma {:induction false} ProcessEffects(occurrences: Inventory, entries: seq<Entry>, reliable: bool, v: Verdict,
                                          item: string)
    ensures var done := Process(occurrences, entries, reliable, v).0;
            Lookup(done, item) == Lookup(occurrences, item)
            || exists e :: e in entries && e.item == item && Lookup(done, item) == Effect(e)
  {
    if entries != [] {
      var n := |entries| - 1;
      ProcessEffects(occurrences, entries[..n], reliable, v, item);
      var before := Process(occurrences, entries[..n], reliable, v).0;
      var done := Process(occurrences, entries, reliable, v).0;
      if Lookup(done, item) != Lookup(before, item) {
        assert entries[n] in entries && entries[n].item == item && Lookup(done, item) == Effect(entries[n]);
      } else if Lookup(before, item) != Lookup(occurrences, item) {
        var e :| e in entries[..n] && e.item == item && Lookup(before, item) == Effect(e);
        assert e in entries;
      }
    }
  }

  lemma JudgeIsHonest(occurrences: Inventory, seen: seq<Entry>, e: Entry, reliable: bool, v: Verdict)
    ensures var outcome := Judge(occurrences, seen, e, reliable, v);
            Accepts(e, reliable, Some(EntryResult(e.item, outcome, false, 0, 0, 0)))
            ==> Lookup(Perform(occurrences, e, outcome), e.item) == Effect(e)
  {
  }

  lemma {:induction false} NoResultForNoItem(results: seq<EntryResult>)
    ensures ResultFor(results, "") == None
  {
    if results != [] {
      NoResultForNoItem(results[..|results| - 1]);
    }
  }

  lemma {:induction false} ProcessIsHonest(occurrences: Inventory, entries: seq<Entry>, reliable: bool, v: Verdict,
                                           e: Entry)
    requires e in entries
    ensures var done := Process(occurrences, entries, reliable, v);
            Accepts(e, reliable, ResultFor(done.1, e.item)) ==> Lookup(done.0, e.item) == Effect(e)
  {
    var n := |entries| - 1;
    var before := Process(occurrences, entries[..n], reliable, v);
    var done := Process(occurrences, entries, reliable, v);
    assert done.1[..|done.1| - 1] == before.1;
    if e in entries[..n] {
      ProcessIsHonest(occurrences, entries[..n], reliable, v, e);
      if entries[n].item == e.item {
        assert Repeats(entries[..n], entries[n]);
      }
    } else {
      assert entries == entries[..n] + [entries[n]];
      assert e == entries[n];
      JudgeIsHonest(before.0, entries[..n], e, reliable, v);
      assert done.1[|done.1| - 1].item == e.item;
      if e.item == "" {
        NoResultForNoItem(done.1);
      }
    }
  }

  lemma {:induction false} MergeEffects(occurrences: Inventory, rows: seq<Entry>, refused: set<string>, item: string)
    requires forall e :: e in rows ==> e.operation == Upsert
    ensures var done := Merge(occurrences, rows, refused);
            Lookup(done, item) == Lookup(occurrences, item)
            || exists e :: e in rows && e.item == item && Lookup(done, item) == Effect(e)
  {
    if rows != [] {
      var n := |rows| - 1;
      MergeEffects(occurrences, rows[..n], refused, item);
      var before, done := Merge(occurrences, rows[..n], refused), Merge(occurrences, rows, refused);
      assert rows[n] in rows;
      if Lookup(done, item) != Lookup(before, item) {
        assert rows[n].item == item && Lookup(done, item) == Effect(rows[n]);
      } else if Lookup(before, item) != Lookup(occurrences, item) {
        var e :| e in rows[..n] && e.item == item && Lookup(before, item) == Effect(e);
        assert e in rows;
      }
    }
  }

  lemma {:induction false} CleanMergeInEffect(occurrences: Inventory, rows: seq<Entry>, refused: set<string>)
    requires forall e :: e in rows ==> e.operation == Upsert
    requires !AnyRejected(rows, refused)
    ensures InEffect(Merge(occurrences, rows, refused), rows)
  {
    if rows != [] {
      var n := |rows| - 1;
      assert rows == rows[..n] + [rows[n]];
      assert !MergeRejects(rows, n, refused);
      forall k | 0 <= k < n ensures !MergeRejects(rows[..n], k, refused) {
        assert rows[..n][..k] == rows[..k];
        assert !MergeRejects(rows, k, refused);
      }
      CleanMergeInEffect(occurrences, rows[..n], refused);
    }
  }

  /** The server holds the effect of an entry that waits for the item. */
  ghost predicate Explained(outbox: seq<Batch>, occurrences: Inventory, item: string) {
    exists e :: e in Waiting(outbox) && e.item == item && Lookup(occurrences, item) == Effect(e)
  }

  /** The server writes only the effects of entries that wait. */
  ghost predicate Writes(occurrences: Inventory, after: Inventory, outbox: seq<Batch>) {
    forall item :: Lookup(after, item) == Lookup(occurrences, item) || Explained(outbox, after, item)
  }

  lemma ProcessWrites(outbox: seq<Batch>, occurrences: Inventory, b: Batch, v: Verdict)
    requires b in outbox && b.state == Pending
    ensures Writes(occurrences, Process(occurrences, b.entries, b.reliable, v).0, outbox)
  {
    forall item
      ensures Lookup(Process(occurrences, b.entries, b.reliable, v).0, item) == Lookup(occurrences, item)
              || Explained(outbox, Process(occurrences, b.entries, b.reliable, v).0, item)
    {
      ProcessEffects(occurrences, b.entries, b.reliable, v, item);
    }
  }

  lemma MergeWrites(outbox: seq<Batch>, occurrences: Inventory, rows: seq<Entry>, refused: set<string>)
    requires forall e :: e in rows ==> e.operation == Upsert && e in Waiting(outbox)
    ensures Writes(occurrences, Merge(occurrences, rows, refused), outbox)
  {
    forall item
      ensures Lookup(Merge(occurrences, rows, refused), item) == Lookup(occurrences, item)
              || Explained(outbox, Merge(occurrences, rows, refused), item)
    {
      MergeEffects(occurrences, rows, refused, item);
    }
  }

  /** Writing only the effects of waiting entries keeps every stored response good. */
  lemma WritesKeepReplies(db: Db, s: Server, after: Inventory)
    requires Functional(db.outbox) && RepliesOk(db, s) && Writes(s.occurrences, after, db.outbox)
    ensures RepliesOk(db, s.(occurrences := after))
  {
    forall b | b in db.outbox && b.state == Pending && b.key in s.replies
      ensures Honest(after, b, s.replies[b.key])
    {
      assert Honest(s.occurrences, b, s.replies[b.key]);
      forall e | e in b.entries && Accepts(e, b.reliable, ResultFor(s.replies[b.key].results, e.item))
        ensures Lookup(after, e.item) == Effect(e)
      {
        assert e in Waiting(db.outbox);
      }
    }
  }
}
