/** No two entries that wait are for one item, so once a row is resolved nothing else
    waits for the items of its entries: in every run. */
module SyncApart {
  import opened Options
  import opened Manifest
  import opened Outbox
  import opened Planning
  import opened SyncProtocol
  import opened SyncInvariant
  import opened SyncSteps
  import opened SyncTables
  import opened SyncClient
  import opened SyncTheorems
  import opened SyncRecords
  import SyncExact
  import Splitting

  // ---------- the entries of two pending rows ----------

  /** No two entries that wait are for one item. */
  ghost predicate Apart(outbox: seq<Batch>) {
    DistinctItems(EntriesOf(PendingOf(outbox)))
  }

  lemma PendingSnoc(outbox: seq<Batch>)
    requires outbox != []
    ensures var front, last := outbox[..|outbox| - 1], outbox[|outbox| - 1];
            EntriesOf(PendingOf(outbox))
            == if last.state == Pending then EntriesOf(PendingOf(front)) + last.entries else EntriesOf(PendingOf(front))
  {
    var front, last := outbox[..|outbox| - 1], outbox[|outbox| - 1];
    if last.state == Pending {
      assert (PendingOf(front) + [last])[..|PendingOf(front)|] == PendingOf(front);
    } else {
      assert PendingOf(front) + [] == PendingOf(front);
    }
  }

  lemma FrontIsApart(outbox: seq<Batch>)
    requires outbox != [] && Apart(outbox)
    ensures var front, last := outbox[..|outbox| - 1], outbox[|outbox| - 1];
            && Apart(front)
            && (last.state == Pending ==>
                  && DistinctItems(last.entries)
                  && forall e, f :: e in EntriesOf(PendingOf(front)) && f in last.entries ==> e.item != f.item)
  {
    PendingSnoc(outbox);
    var front, last := outbox[..|outbox| - 1], outbox[|outbox| - 1];
    if last.state == Pending { SyncExact.ConcatDistinct(EntriesOf(PendingOf(front)), last.entries); }
  }

  lemma JoinDistinct(a: seq<Entry>, b: seq<Entry>)
    requires DistinctItems(a) && DistinctItems(b) && forall e, f :: e in a && f in b ==> e.item != f.item
    ensures DistinctItems(a + b)
  {
    forall i, j | 0 <= i < j < |a + b| ensures (a + b)[i].item != (a + b)[j].item {
      if i < |a| && j >= |a| { assert a[i] in a && b[j - |a|] in b; }
    }
  }

  /** Rows leave the pending state. */
  ghost predicate Shrinks(outbox: seq<Batch>, after: seq<Batch>) {
    |after| == |outbox| && forall i :: 0 <= i < |outbox| ==> after[i] == outbox[i] || after[i].state != Pending
  }

  lemma {:induction false} ShrunkIsApart(outbox: seq<Batch>, after: seq<Batch>)
    requires Shrinks(outbox, after) && Apart(outbox)
    ensures Apart(after)
    ensures forall e :: e in EntriesOf(PendingOf(after)) ==> e in EntriesOf(PendingOf(outbox))
  {
    if outbox != [] {
      var n := |outbox| - 1;
      FrontIsApart(outbox);
      ShrunkIsApart(outbox[..n], after[..n]);
      PendingSnoc(outbox);
      PendingSnoc(after);
      if after[n].state == Pending { JoinDistinct(EntriesOf(PendingOf(after[..n])), after[n].entries); }
    }
  }

  lemma PendingEntry(outbox: seq<Batch>, e: Entry)
    requires outbox != []
    ensures var front, last := outbox[..|outbox| - 1], outbox[|outbox| - 1];
            e in EntriesOf(PendingOf(outbox)) <==>
            e in EntriesOf(PendingOf(front)) || (last.state == Pending && e in last.entries)
  {
    PendingSnoc(outbox);
  }

  lemma FrontApart(outbox: seq<Batch>)
    requires outbox != [] && Apart(outbox)
    ensures Apart(outbox[..|outbox| - 1])
  {
    FrontIsApart(outbox);
  }

  lemma LastApart(outbox: seq<Batch>, e: Entry, f: Entry)
    requires outbox != [] && Apart(outbox) && outbox[|outbox| - 1].state == Pending
    requires e in EntriesOf(PendingOf(outbox[..|outbox| - 1])) && f in outbox[|outbox| - 1].entries
    ensures e.item != f.item
  {
    FrontIsApart(outbox);
  }

  lemma ShrunkEntry(outbox: seq<Batch>, after: seq<Batch>, e: Entry)
    requires Shrinks(outbox, after) && Apart(outbox) && e in EntriesOf(PendingOf(after))
    ensures e in EntriesOf(PendingOf(outbox))
  {
    ShrunkIsApart(outbox, after);
  }

  lemma RowIsPending(outbox: seq<Batch>, at: nat, x: Entry)
    requires at < |outbox| && outbox[at].state == Pending && x in outbox[at].entries
    ensures x in EntriesOf(PendingOf(outbox))
  {
    PendingMembers(outbox);
    EntriesMembers(PendingOf(outbox));
    assert outbox[at] in PendingOf(outbox);
  }

  /** Once a row is resolved, nothing that waits is for an item of its entries. */
  lemma {:induction false} ResolvedIsAlone(outbox: seq<Batch>, after: seq<Batch>, at: nat, x: Entry, e: Entry)
    requires Apart(outbox) && Shrinks(outbox, after) && at < |outbox|
    requires outbox[at].state == Pending && after[at].state != Pending && x in outbox[at].entries
    requires e in EntriesOf(PendingOf(after))
    ensures e.item != x.item
  {
    var n := |outbox| - 1;
    FrontApart(outbox);
    PendingEntry(after, e);
    if at == n {
      ShrunkEntry(outbox[..n], after[..n], e);
      LastApart(outbox, e, x);
    } else if e in EntriesOf(PendingOf(after[..n])) {
      ResolvedIsAlone(outbox[..n], after[..n], at, x, e);
    } else {
      RowIsPending(outbox[..n], at, x);
      LastApart(outbox, x, e);
    }
  }

  // ---------- every step keeps the entries apart ----------

  lemma QueuedIsApart(w: World, scan: Scan, changed: seq<Entry>, deleted: seq<Entry>)
    requires PendingOf(w.db.outbox) == [] && Proper(scan)
    requires IsPlan(scan, w.db.known, QuarantineOf(w.db.outbox), changed, deleted)
    ensures Apart(QueueBatches(w.db, ChunkPayloads(scan.completeRead, changed + deleted, MANIFEST_BATCH_SIZE)).outbox)
  {
    QueuedRows(w.db, ChunkPayloads(scan.completeRead, changed + deleted, MANIFEST_BATCH_SIZE));
    Splitting.RowsOfPayloads(
      w.db.nextId, w.db.nextId + 1, scan.completeRead, changed + deleted, MANIFEST_BATCH_SIZE);
    PlanIsDistinct(scan, w.db.known, QuarantineOf(w.db.outbox), changed, deleted);
  }

  lemma QueueKeepsApart(w: World, h: int, e: Event)
    requires ClientAt(w, h) && Apart(w.db.outbox) && e.QueueScan?
    ensures Apart(Step(w, e).db.outbox)
  {
    if Step(w, e).db != w.db { QueuedIsApart(w, e.scan, e.changed, e.deleted); }
  }

  lemma SplitKeepsApart(db: Db)
    requires UniqueRows(db.outbox, db.nextId) && Apart(db.outbox)
    ensures Apart(Split(db, MANIFEST_BATCH_SIZE).outbox)
  {
    Splitting.SplitConservesPending(db, MANIFEST_BATCH_SIZE);
    SyncExact.PermutationIsDistinct(
      EntriesOf(PendingOf(db.outbox)), EntriesOf(PendingOf(Split(db, MANIFEST_BATCH_SIZE).outbox)));
  }

  lemma CommitShrinks(w: World, h: int)
    requires ClientAt(w, h)
    ensures Shrinks(w.db.outbox, StepCommit(w).db.outbox)
  {
    if w.pc.Answered? { StoredParts(w, w.pc.batch, w.pc.response); } else { CommitKeepsOutbox(w); }
  }

  lemma FinishShrinks(w: World)
    ensures Shrinks(w.db.outbox, StepFinish(w).db.outbox)
  {
    if w.pc.ApplyingPages? {
      if CompleteBulk(w.db, w.pc.bulk).Success? {
        var ids := SetOf(w.db.bulks[FindBulk(w.db.bulks, w.pc.bulk).value].captured);
        assert StepFinish(w).db.outbox == DiscardPending(w.db.outbox, ids);
      } else {
        FallBackKeepsOutbox(w, w.pc.bulk, FailedPermanent);
      }
    }
  }

  lemma StepKeepsApart(w: World, h: int, e: Event)
    requires ClientAt(w, h) && Apart(w.db.outbox)
    ensures Apart(Step(w, e).db.outbox)
  {
    if e.QueueScan? {
      QueueKeepsApart(w, h, e);
    } else if e == SplitBatches {
      SplitKeepsApart(w.db);
      assert Step(w, e).db in {w.db, Split(w.db, MANIFEST_BATCH_SIZE)};
    } else if e == Commit {
      assert Step(w, e) == StepCommit(w);
      CommitShrinks(w, h);
      ShrunkIsApart(w.db.outbox, StepCommit(w).db.outbox);
    } else if e == FinishResult {
      assert Step(w, e) == StepFinish(w);
      FinishShrinks(w);
      ShrunkIsApart(w.db.outbox, StepFinish(w).db.outbox);
    } else {
      OthersKeepOutbox(w, e);
    }
  }

  lemma {:induction false} RunIsApart(start: World, events: seq<Event>) returns (h: int)
    requires Fresh(start)
    ensures ClientAt(Run(start, events), h) && Apart(Run(start, events).db.outbox)
  {
    if events == [] {
      FreshHolds(start);
      h := -1;
    } else {
      var n := |events| - 1;
      h := RunIsApart(start, events[..n]);
      StepKeepsApart(Run(start, events[..n]), h, events[n]);
      h := StepKeeps(Run(start, events[..n]), h, events[n]);
    }
  }
}
