/** The bulk side of the protocol and the server's own steps keep both parts of the
    invariant. */
module SyncBulk {
  import opened Options
  import opened Manifest
  import opened Outbox
  import opened SyncProtocol
  import opened SyncInvariant
  import opened SyncSteps
  import opened SyncTables
  import opened SyncClient
  import opened SyncSafety
  import BulkRefinement

  // ---------- the server's own steps ----------

  /** A status change that never starts an import nor touches a finished one. */
  ghost predicate ServerMove(i: Import, status: ImportStatus) {
    && !Over(i.status) && (Live(status) ==> Live(i.status))
    && (status == Succeeded ==> i.merged && !i.rejected)
    && status != AwaitingUpload
  }

  lemma ServerMoveSubmissions(bulks: seq<BulkItem>, imports: seq<Import>, k: nat, status: ImportStatus)
    requires SubmissionsOk(bulks, imports) && k < |imports| && (Live(status) ==> Live(imports[k].status))
    ensures SubmissionsOk(bulks, imports[k := imports[k].(status := status)])
  {
    var after := imports[k := imports[k].(status := status)];
    forall j | 0 <= j < |after| && (Live(after[j].status) || after[j].merged)
      ensures exists i :: 0 <= i < |bulks| && BoundTo(bulks[i], j, Live(after[j].status))
    {
      var i :| 0 <= i < |bulks| && BoundTo(bulks[i], j, Live(imports[j].status));
      assert BoundTo(bulks[i], j, Live(after[j].status));
    }
  }

  lemma ServerMoveImports(db: Db, imports: seq<Import>, k: nat, status: ImportStatus)
    requires ImportsOk(db, imports) && k < |imports| && ServerMove(imports[k], status)
    ensures ImportsOk(db, imports[k := imports[k].(status := status)])
  {
    forall i | 0 <= i < |db.bulks| ensures BindingOk(db, db.bulks[i], imports[k := imports[k].(status := status)]) {
      assert BindingOk(db, db.bulks[i], imports);
    }
  }

  lemma ServerMovePoint(w: World, h: int, k: nat, status: ImportStatus)
    requires PointServer(w, h) && k < |w.server.imports| && ServerMove(w.server.imports[k], status)
    ensures PointServer(w.(server := SetStatus(w.server, k, status)), h)
  {
  }

  lemma ServerMoveKeeps(w: World, h: int, k: nat, status: ImportStatus)
    requires ServerAt(w, h) && k < |w.server.imports| && ServerMove(w.server.imports[k], status)
    ensures ServerAt(w.(server := SetStatus(w.server, k, status)), h)
  {
    ServerMoveImports(w.db, w.server.imports, k, status);
    ServerMoveSubmissions(w.db.bulks, w.server.imports, k, status);
    ServerMovePoint(w, h, k, status);
  }

  lemma HeldByRunning(w: World, h: int, k: nat)
    requires ImportsOk(w.db, w.server.imports) && SubmissionsOk(w.db.bulks, w.server.imports) && HotClient(w.db, h)
    requires k < |w.server.imports| && w.server.imports[k].status == Running
    ensures h >= 0 && BoundTo(w.db.bulks[h], k, true)
    ensures w.server.imports[k].rows == RowsOf(w.db.outbox, w.db.bulks[h].captured)
  {
    var i :| 0 <= i < |w.db.bulks| && BoundTo(w.db.bulks[i], k, true);
    assert i == h && BindingOk(w.db, w.db.bulks[h], w.server.imports);
  }

  /** The rows of a running import are captured, and still wait. */
  lemma RunningRowsWait(w: World, h: int, k: nat)
    requires InvAt(w, h) && k < |w.server.imports| && w.server.imports[k].status == Running
    ensures forall e :: e in w.server.imports[k].rows ==> e.operation == Upsert && e in Waiting(w.db.outbox)
  {
    HeldByRunning(w, h, k);
    RowsAreFunctional(w.db, h);
  }

  /** A merge writes only captured rows, all of which are still waiting. */
  lemma MergedReplies(w: World, h: int, k: nat, refused: set<string>)
    requires InvAt(w, h) && k < |w.server.imports| && w.server.imports[k].status == Running
    ensures var after := Merge(w.server.occurrences, w.server.imports[k].rows, refused);
            && RepliesOk(w.db, w.server.(occurrences := after))
            && (!AnyRejected(w.server.imports[k].rows, refused) ==> InEffect(after, w.server.imports[k].rows))
  {
    var rows := w.server.imports[k].rows;
    RunningRowsWait(w, h, k);
    MergeWrites(w.db.outbox, w.server.occurrences, rows, refused);
    WritesKeepReplies(w.db, w.server, Merge(w.server.occurrences, rows, refused));
    if !AnyRejected(rows, refused) { CleanMergeInEffect(w.server.occurrences, rows, refused); }
  }

  /** What the hot item and the process hold stays good in a merge of its import. */
  lemma MergedHot(w: World, h: int, k: nat, s: Server, rejected: bool)
    requires HotClient(w.db, h) && PointClient(w, h) && PointServer(w, h)
    requires h >= 0 && k < |w.server.imports| && BoundTo(w.db.bulks[h], k, true)
    requires w.server.imports[k].status == Running
    requires s.imports == w.server.imports[k := w.server.imports[k].(merged := true, rejected := rejected)]
    requires !rejected ==> InEffect(s.occurrences, RowsOf(w.db.outbox, w.db.bulks[h].captured))
    ensures HotServer(w.(server := s), h) && PointServer(w.(server := s), h)
  {
  }

  lemma MergedSubmissions(bulks: seq<BulkItem>, imports: seq<Import>, h: nat, k: nat, merged: Import)
    requires SubmissionsOk(bulks, imports) && k < |imports| && merged.status == Running
    requires h < |bulks| && BoundTo(bulks[h], k, true)
    ensures SubmissionsOk(bulks, imports[k := merged])
  {
    var after := imports[k := merged];
    forall j | 0 <= j < |after| && (Live(after[j].status) || after[j].merged)
      ensures exists x :: 0 <= x < |bulks| && BoundTo(bulks[x], j, Live(after[j].status))
    {
      if j == k {
        assert BoundTo(bulks[h], k, true);
      } else {
        var x :| 0 <= x < |bulks| && BoundTo(bulks[x], j, Live(imports[j].status));
        assert BoundTo(bulks[x], j, Live(after[j].status));
      }
    }
  }

  lemma MergedImports(db: Db, imports: seq<Import>, k: nat, merged: Import)
    requires ImportsOk(db, imports) && k < |imports|
    requires merged.rows == imports[k].rows && merged.snapshot == imports[k].snapshot && merged.status == Running
    ensures ImportsOk(db, imports[k := merged])
  {
    forall i | 0 <= i < |db.bulks| ensures BindingOk(db, db.bulks[i], imports[k := merged]) {
      assert BindingOk(db, db.bulks[i], imports);
    }
  }

  lemma MergeKeeps(w: World, h: int, k: nat, refused: set<string>)
    requires InvAt(w, h) && k < |w.server.imports|
    requires w.server.imports[k].status == Running && !w.server.imports[k].merged
    ensures ServerAt(w.(server := StepServer(w.server, ServerMerge(k, refused))), h)
  {
    var rows := w.server.imports[k].rows;
    var merged := w.server.imports[k].(merged := true, rejected := AnyRejected(rows, refused));
    var s := StepServer(w.server, ServerMerge(k, refused));
    HeldByRunning(w, h, k);
    MergedReplies(w, h, k, refused);
    MergedImports(w.db, w.server.imports, k, merged);
    MergedSubmissions(w.db.bulks, w.server.imports, h, k, merged);
    MergedHot(w, h, k, s, merged.rejected);
  }

  lemma ServerStatusKeeps(w: World, h: int, e: Event)
    requires ServerAt(w, h) && (e.ServerStart? || e.ServerRetry? || e.ServerFinish? || e.ServerAbort?)
    ensures ServerAt(w.(server := StepServer(w.server, e)), h)
  {
    var i := e.i;
    var s := StepServer(w.server, e);
    if s != w.server {
      var status := s.imports[i].status;
      assert s == SetStatus(w.server, i, status);
      ServerMoveKeeps(w, h, i, status);
    }
  }

  lemma ServerKeepsServer(w: World, h: int, e: Event)
    requires InvAt(w, h)
    ensures ServerAt(w.(server := StepServer(w.server, e)), h)
  {
    if e.ServerStart? || e.ServerRetry? || e.ServerFinish? || e.ServerAbort? {
      ServerStatusKeeps(w, h, e);
    } else if e.ServerMerge? && e.i < |w.server.imports| && w.server.imports[e.i].status == Running
        && !w.server.imports[e.i].merged {
      MergeKeeps(w, h, e.i, e.refused);
    } else {
      assert w.(server := StepServer(w.server, e)) == w;
    }
  }

  /** The client's part does not look at the server. */
  lemma SameClient(w: World, h: int, s: Server)
    requires ClientAt(w, h)
    ensures ClientAt(w.(server := s), h)
  {
  }

  lemma ServerKeeps(w: World, h: int, e: Event)
    requires ClientAt(w, h)
    ensures Keeps(w, h, w.(server := StepServer(w.server, e)), h)
  {
    SameClient(w, h, StepServer(w.server, e));
    if ServerAt(w, h) { ServerKeepsServer(w, h, e); }
  }

  // ---------- creating and submitting an import ----------

  lemma HeldBound(w: World, h: int, bulk: nat)
    requires TablesOk(w.db) && ImportsOk(w.db, w.server.imports) && Holds(w, h, bulk)
    ensures FindBulk(w.db.bulks, bulk) == Some(h)
    ensures Bound(w, bulk) == w.db.bulks[h].serverImport
    ensures w.db.bulks[h].serverImport.Some? ==> HoldsBound(w, h, bulk)
  {
    FindHeld(w.db.bulks, h);
    assert BindingOk(w.db, w.db.bulks[h], w.server.imports);
  }

  /** An import whose item is not bound to it was never submitted. */
  lemma UnboundIsFresh(w: World, h: int, k: nat)
    requires TablesOk(w.db) && ImportsOk(w.db, w.server.imports) && SubmissionsOk(w.db.bulks, w.server.imports)
    requires 0 <= h < |w.db.bulks| && w.db.bulks[h].serverImport.None?
    requires k < |w.server.imports| && w.server.imports[k].snapshot == w.db.bulks[h].snapshot
    ensures !Live(w.server.imports[k].status) && !w.server.imports[k].merged
  {
    forall i | 0 <= i < |w.db.bulks| ensures !BoundTo(w.db.bulks[i], k, false) {
      assert BindingOk(w.db, w.db.bulks[i], w.server.imports);
    }
  }

  lemma NewImportKeeps(db: Db, s: Server, h: int)
    requires ItemsOk(db) && ListsOk(db, s) && 0 <= h < |db.bulks|
    requires ImportOf(s.imports, db.bulks[h].snapshot).None?
    ensures var item := db.bulks[h];
            ListsOk(db, CreateImport(s, item.snapshot, RowsOf(db.outbox, item.captured)).0)
  {
    var item := db.bulks[h];
    assert ItemOk(db, item);
    var c := CreateImport(s, item.snapshot, RowsOf(db.outbox, item.captured));
    forall i | 0 <= i < |db.bulks| ensures BindingOk(db, db.bulks[i], c.0.imports) {
      assert BindingOk(db, db.bulks[i], s.imports);
    }
    forall j | 0 <= j < |c.0.imports| && (Live(c.0.imports[j].status) || c.0.imports[j].merged)
      ensures exists i :: 0 <= i < |db.bulks| && BoundTo(db.bulks[i], j, Live(c.0.imports[j].status))
    {
      assert j < |s.imports|;
    }
  }

  lemma SupersedeKeeps(w: World, h: int, superseded: Option<nat>)
    requires ServerAt(w, h)
    ensures ServerAt(w.(server := Supersede(w.server, superseded)), h)
  {
    if Supersede(w.server, superseded) != w.server { ServerMoveKeeps(w, h, superseded.value, Expired); }
  }

  /** The request reaches the server `s`, which knows or creates the import. */
  lemma CreatedServer(w: World, h: int, s: Server, lost: bool)
    requires TablesOk(w.db) && ListsOk(w.db, s)
    requires 0 <= h < |w.db.bulks| && w.db.bulks[h].serverImport.None?
    ensures var item := w.db.bulks[h];
            var c := CreateImport(s, item.snapshot, RowsOf(w.db.outbox, item.captured));
            ServerAt(World(w.db, c.0, if lost then Idle else Created(item.id, c.1, c.0.imports[c.1].status)), h)
  {
    var item := w.db.bulks[h];
    var c := CreateImport(s, item.snapshot, RowsOf(w.db.outbox, item.captured));
    if ImportOf(s.imports, item.snapshot).None? { NewImportKeeps(w.db, s, h); }
    UnboundIsFresh(World(w.db, c.0, Idle), h, c.1);
  }

  /** What a request for an import does, by cases. */
  lemma CreateParts(w: World, h: nat, lost: bool, superseded: Option<nat>)
    requires w.pc.Resuming? && FindBulk(w.db.bulks, w.pc.bulk) == Some(h)
    ensures var item := w.db.bulks[h];
            var replay := ImportOf(w.server.imports, item.snapshot).Some?;
            var s := if replay then w.server else Supersede(w.server, superseded);
            var c := CreateImport(s, item.snapshot, RowsOf(w.db.outbox, item.captured));
            StepCreate(w, lost, superseded)
            == if item.serverImport.Some? then w.(pc := Refreshing(item.id))
               else if !AllPending(w.db.outbox, item.captured) || (!replay && Unfinished(s.imports))
               then FallBack(w, item.id, FailedPermanent)
               else World(w.db, c.0, if lost then Idle else Created(item.id, c.1, c.0.imports[c.1].status))
  {
  }

  lemma CreateKeeps(w: World, h: int, lost: bool, superseded: Option<nat>) returns (h': int)
    requires ClientAt(w, h) && w.pc.Resuming?
    ensures Keeps(w, h, StepCreate(w, lost, superseded), h')
  {
    h' := h;
    HeldItem(w, h, w.pc.bulk);
    CreateParts(w, h, lost, superseded);
    var item := w.db.bulks[h];
    if item.serverImport.Some? {
      if ServerAt(w, h) { HeldBound(w, h, w.pc.bulk); }
    } else {
      var replay := ImportOf(w.server.imports, item.snapshot).Some?;
      var s := if replay then w.server else Supersede(w.server, superseded);
      if !AllPending(w.db.outbox, item.captured) || (!replay && Unfinished(s.imports)) {
        FallBackKeeps(w, h, w.pc.bulk, FailedPermanent);
        h' := -1;
      } else if ServerAt(w, h) {
        if !replay { SupersedeKeeps(w, h, superseded); }
        CreatedServer(w, h, s, lost);
      }
    }
  }

  lemma BindServer(w: World, h: int)
    requires InvAt(w, h) && w.pc.Created?
    ensures ServerAt(StepCommit(w), h) && StepCommit(w).pc == Refreshing(w.pc.bulk)
  {
    HeldItem(w, h, w.pc.bulk);
    BindParts(w, h);
    var item := BoundItem(w.db.bulks[h], w.pc.serverImport, w.pc.status);
    ItemUpdateKeepsImports(w.db, w.server.imports, h, item);
    ItemUpdateKeepsSubmissions(w.db.bulks, w.server.imports, h, item);
    PendingRepliesStay(w.db, w.server, w.db.(bulks := w.db.bulks[h := item]));
  }

  lemma BindKeeps(w: World, h: int) returns (h': int)
    requires ClientAt(w, h) && w.pc.Created?
    ensures Keeps(w, h, StepCommit(w), h')
  {
    h' := BindClient(w, h);
    if ServerAt(w, h) { BindServer(w, h); }
  }

  lemma UploadedImports(db: Db, bulks: seq<BulkItem>, imports: seq<Import>, h: nat, k: nat)
    requires ImportsOk(db, imports) && SubmissionsOk(bulks, imports) && k < |imports|
             && imports[k].status == AwaitingUpload
    requires h < |bulks| && BoundTo(bulks[h], k, true)
    ensures var after := imports[k := imports[k].(status := Queued)];
            ImportsOk(db, after) && SubmissionsOk(bulks, after)
  {
    var after := imports[k := imports[k].(status := Queued)];
    forall i | 0 <= i < |db.bulks| ensures BindingOk(db, db.bulks[i], after) {
      assert BindingOk(db, db.bulks[i], imports);
    }
    forall j | 0 <= j < |after| && (Live(after[j].status) || after[j].merged)
      ensures exists i :: 0 <= i < |bulks| && BoundTo(bulks[i], j, Live(after[j].status))
    {
      if j == k {
        assert BoundTo(bulks[h], k, true);
      } else {
        var i :| 0 <= i < |bulks| && BoundTo(bulks[i], j, Live(imports[j].status));
        assert BoundTo(bulks[i], j, Live(after[j].status));
      }
    }
  }

  lemma UploadQueued(w: World, h: int, k: nat, pc: Pc)
    requires InvAt(w, h) && w.pc.Uploading? && HoldsBound(w, h, w.pc.bulk)
    requires w.db.bulks[h].serverImport == Some(k) && w.server.imports[k].status == AwaitingUpload
    requires pc == Idle || pc == Uploaded(w.pc.bulk, Queued)
    ensures ServerAt(World(w.db, SetStatus(w.server, k, Queued), pc), h)
  {
    UploadedImports(w.db, w.db.bulks, w.server.imports, h, k);
  }

  lemma CompleteUploadServer(w: World, h: int, b: nat, lost: bool)
    requires InvAt(w, h) && w.pc == Uploading(b)
    ensures ServerAt(StepComplete(w, lost), h)
  {
    HeldBound(w, h, b);
    var k := Bound(w, b).value;
    if w.server.imports[k].status == AwaitingUpload {
      UploadQueued(w, h, k, if lost then Idle else Uploaded(b, Queued));
    }
  }

  lemma CompleteUploadKeeps(w: World, h: int, lost: bool)
    requires ClientAt(w, h)
    ensures Keeps(w, h, StepComplete(w, lost), h)
  {
    if w.pc.Uploading? && ServerAt(w, h) { CompleteUploadServer(w, h, w.pc.bulk, lost); }
  }

  // ---------- applying a verified result ----------

  /** The rows of a succeeded import are in effect on the server. */
  lemma SucceededInEffect(w: World, h: int)
    requires ImportsOk(w.db, w.server.imports) && HotServer(w, h) && 0 <= h < |w.db.bulks|
    requires HoldsBound(w, h, w.db.bulks[h].id) && StatusOf(w, h) == Succeeded
    ensures InEffect(w.server.occurrences, RowsOf(w.db.outbox, w.db.bulks[h].captured))
  {
  }

  lemma AppliedServer(w: World, h: int, page: seq<Row>, after: Db)
    requires InvAt(w, h) && w.pc.ApplyingPages? && h >= 0
    requires after.bulks == w.db.bulks[h := BulkRefinement.MovedBy(w.db.bulks[h], page)]
    requires after.outbox == w.db.outbox && after.nextId == w.db.nextId
    ensures ServerAt(w.(db := after), h)
  {
    UpdatedLists(w.db, w.server, h, BulkRefinement.MovedBy(w.db.bulks[h], page), after);
  }

  lemma AppliedKeeps(w: World, h: int, page: seq<Row>)
    requires ClientAt(w, h) && w.pc.ApplyingPages? && FindBulk(w.db.bulks, w.pc.bulk) == Some(h)
    requires DeliversRows(page, RowsOf(w.db.outbox, w.db.bulks[h].captured), w.db.bulks[h].appliedThrough)
    requires ApplyRows(w.db, w.pc.bulk, page).Success?
    ensures Keeps(w, h, w.(db := ApplyRows(w.db, w.pc.bulk, page).value.0), h)
  {
    PageClient(w, h, page);
    BulkRefinement.AcceptedPageParts(w.db, w.pc.bulk, h, page);
    if ServerAt(w, h) { AppliedServer(w, h, page, ApplyRows(w.db, w.pc.bulk, page).value.0); }
  }

  /** A page of the result is applied, or the engine falls back. */
  lemma OfferedPageKeeps(w: World, h: int, page: seq<Row>) returns (h': int)
    requires ClientAt(w, h) && w.pc.ApplyingPages? && FindBulk(w.db.bulks, w.pc.bulk) == Some(h)
    requires DeliversRows(page, RowsOf(w.db.outbox, w.db.bulks[h].captured), w.db.bulks[h].appliedThrough)
    ensures var r := ApplyRows(w.db, w.pc.bulk, page);
            Keeps(w, h, if r.Success? then w.(db := r.value.0) else FallBack(w, w.pc.bulk, FailedPermanent), h')
  {
    if ApplyRows(w.db, w.pc.bulk, page).Success? {
      AppliedKeeps(w, h, page);
      h' := h;
    } else {
      FallBackKeeps(w, h, w.pc.bulk, FailedPermanent);
      h' := -1;
    }
  }

  lemma PageKeeps(w: World, h: int, size: nat, results: seq<EntryResult>) returns (h': int)
    requires ClientAt(w, h)
    ensures Keeps(w, h, StepApplyPage(w, size, results), h')
  {
    h' := h;
    if w.pc.ApplyingPages? {
      HeldItem(w, h, w.pc.bulk);
      var item := w.db.bulks[h];
      var rows := RowsOf(w.db.outbox, item.captured);
      if Truthful(rows, results) && 1 <= size <= BULK_RESULT_APPLY_PAGE_SIZE && item.appliedThrough + size <= |rows| {
        NextPageDeliveries(rows, results, item.appliedThrough, size);
        h' := OfferedPageKeeps(w, h, NextPage(rows, results, item.appliedThrough, size));
      }
    }
  }

  // ---------- finishing ----------

  lemma DiscardedLists(db: Db, s: Server, ids: set<nat>)
    requires TablesOk(db) && ListsOk(db, s)
    ensures ListsOk(db.(outbox := DiscardPending(db.outbox, ids), nextId := db.nextId), s)
  {
    var outbox := DiscardPending(db.outbox, ids);
    DiscardedWait(db.outbox, ids);
    ExtensionKeepsImports(db, s.imports, outbox, db.nextId);
    PendingRepliesStay(db, s, db.(outbox := outbox, nextId := db.nextId));
  }

  lemma CompletedServer(w: World, h: int)
    requires InvAt(w, h) && w.pc.ApplyingPages? && FindBulk(w.db.bulks, w.pc.bulk) == Some(h)
    requires CompleteBulk(w.db, w.pc.bulk).Success?
    ensures ServerAt(StepFinish(w), -1)
  {
    var ids, applied := SetOf(w.db.bulks[h].captured), w.db.bulks[h].(state := Applied);
    CompletedParts(w, h);
    DiscardedLists(w.db, w.server, ids);
    UpdatedLists(w.db.(outbox := DiscardPending(w.db.outbox, ids), nextId := w.db.nextId), w.server, h, applied,
                 CompleteBulk(w.db, w.pc.bulk).value);
  }

  lemma FinishKeeps(w: World, h: int) returns (h': int)
    requires ClientAt(w, h)
    ensures Keeps(w, h, StepFinish(w), h')
  {
    h' := h;
    if w.pc.ApplyingPages? {
      HeldItem(w, h, w.pc.bulk);
      h' := -1;
      if CompleteBulk(w.db, w.pc.bulk).Failure? {
        FallBackKeeps(w, h, w.pc.bulk, FailedPermanent);
      } else {
        CompletedClient(w, h);
        if ServerAt(w, h) { CompletedServer(w, h); }
      }
    }
  }
}
