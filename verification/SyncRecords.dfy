/** Captured work is never lost: what one step of a run may do to an entry that
    waits for delivery, and to the batches an import captured. */
module SyncRecords {
  import opened Options
  import opened Manifest
  import opened Outbox
  import opened Planning
  import opened SyncProtocol
  import opened SyncInvariant
  import opened SyncSteps
  import opened SyncTables
  import opened SyncClient
  import opened SyncSafety
  import opened SyncBulk
  import opened SyncTheorems
  import BulkRefinement

  // ---------- the outbox in one step ----------

  predicate WritesOutbox(e: Event) {
    e.QueueScan? || e.SplitBatches? || e.Commit? || e.FinishResult?
  }

  lemma FallBackKeepsOutbox(w: World, bulk: nat, state: ImportStatus)
    ensures FallBack(w, bulk, state).db.outbox == w.db.outbox
  {
  }

  lemma BulkRequestsKeepOutbox(w: World, e: Event)
    requires e.StatusUnusable? || e.CreateRequest? || e.RequestRejected? || e.CompleteRequest? || e.CompleteUnusable?
    ensures Step(w, e).db.outbox == w.db.outbox
  {
  }

  lemma BulkResultsKeepOutbox(w: World, e: Event)
    requires e.Decide? || e.OpenResult? || e.ApplyPage? || e.NotAwaitingUpload? || e.ReadStatus?
    ensures Step(w, e).db.outbox == w.db.outbox
  {
  }

  lemma OthersKeepOutbox(w: World, e: Event)
    requires !WritesOutbox(e)
    ensures Step(w, e).db.outbox == w.db.outbox
  {
    if e.StatusUnusable? || e.CreateRequest? || e.RequestRejected? || e.CompleteRequest? || e.CompleteUnusable? {
      BulkRequestsKeepOutbox(w, e);
    } else if e.Decide? || e.OpenResult? || e.ApplyPage? || e.NotAwaitingUpload? || e.ReadStatus? {
      BulkResultsKeepOutbox(w, e);
    }
  }

  lemma CommitKeepsOutbox(w: World)
    requires !w.pc.Answered?
    ensures StepCommit(w).db.outbox == w.db.outbox
  {
  }

  // ---------- an entry that waits ----------

  /** After a step, an entry that waited still waits, or is noted as refused, or is
      in effect in the client's record. */
  ghost predicate Accounted(after: Db, e: Entry) {
    e in Waiting(after.outbox) || e in Noted(after.outbox) || Lookup(after.known, e.item) == Effect(e)
  }

  lemma AcknowledgeAccounts(w: World, b: Batch, r: Response, entry: Entry)
    requires ClientAt(w, -1) && w.pc == Answered(b, Some(r)) && entry in Waiting(w.db.outbox)
    ensures Accounted(Acknowledge(w.db, b, r), entry)
  {
    var db := w.db;
    var after := Acknowledge(db, b, r);
    var ds := Accepted(b.entries, b.reliable, r.results);
    StoredParts(w, b, Some(r));
    ResolvedTables(db.outbox, after.outbox, b, StoredState(b, Some(r)), RefusedBy(b, Some(r)));
    AcceptedOrRefused(b.entries, b.reliable, r.results);
    if entry in b.entries && Accepts(entry, b.reliable, ResultFor(r.results, entry.item)) {
      forall d | d in ds ensures d.0 in Waiting(db.outbox) {
        assert d.0 in b.entries;
      }
      BatchDelivered(db, ds, (entry, ResultFor(r.results, entry.item).value));
    }
  }

  lemma BatchDelivered(db: Db, ds: seq<Delivery>, d: Delivery)
    requires Functional(db.outbox) && d in ds && forall c :: c in ds ==> c.0 in Waiting(db.outbox)
    ensures Lookup(DeliverAll(db.source, StoreOf(db), ds).known, d.0.item) == Effect(d.0)
  {
    DeliverEffects(db.source, StoreOf(db), ds, d.0.item);
  }

  lemma RejectAccounts(w: World, b: Batch, entry: Entry)
    requires ClientAt(w, -1) && w.pc == Answered(b, None) && entry in Waiting(w.db.outbox)
    ensures Accounted(RejectRequest(w.db, b), entry)
  {
    StoredParts(w, b, None);
    ResolvedTables(w.db.outbox, RejectRequest(w.db, b).outbox, b, Failed, b.entries);
  }

  lemma DiscardAccounts(outbox: seq<Batch>, ids: set<nat>, entry: Entry)
    requires entry in Waiting(outbox) && entry !in Waiting(DiscardPending(outbox, ids))
    ensures exists b :: b in outbox && b.id in ids && entry in b.entries
  {
    var b :| b in outbox && b.state == Pending && entry in b.entries;
    var i :| 0 <= i < |outbox| && outbox[i] == b;
    assert DiscardPending(outbox, ids)[i] in DiscardPending(outbox, ids);
  }

  lemma CompletedAccounts(w: World, h: int, entry: Entry)
    requires ClientAt(w, h) && h >= 0 && w.pc.ApplyingPages? && entry in Waiting(w.db.outbox)
    requires w.db.bulks[h].appliedThrough >= |RowsOf(w.db.outbox, w.db.bulks[h].captured)|
    ensures Accounted(w.db.(outbox := DiscardPending(w.db.outbox, SetOf(w.db.bulks[h].captured))), entry)
  {
    var captured := w.db.bulks[h].captured;
    var ids := SetOf(captured);
    if entry !in Waiting(DiscardPending(w.db.outbox, ids)) {
      DiscardAccounts(w.db.outbox, ids, entry);
      var b :| b in w.db.outbox && b.id in ids && entry in b.entries;
      CapturedRow(w.db.outbox, w.db.nextId, captured, b, entry);
      AllRowsKnown(w.db, h);
    }
  }

  lemma FinishAccounts(w: World, h: int, entry: Entry)
    requires ClientAt(w, h) && entry in Waiting(w.db.outbox)
    ensures Accounted(StepFinish(w).db, entry)
  {
    if w.pc.ApplyingPages? {
      HeldItem(w, h, w.pc.bulk);
      if CompleteBulk(w.db, w.pc.bulk).Success? {
        CompletedAccounts(w, h, entry);
      } else {
        FallBackKeepsOutbox(w, w.pc.bulk, FailedPermanent);
      }
    }
  }

  lemma CommitAccounts(w: World, h: int, entry: Entry)
    requires ClientAt(w, h) && entry in Waiting(w.db.outbox)
    ensures Accounted(StepCommit(w).db, entry)
  {
    if w.pc.Answered? {
      if w.pc.response.Some? {
        AcknowledgeAccounts(w, w.pc.batch, w.pc.response.value, entry);
      } else {
        RejectAccounts(w, w.pc.batch, entry);
      }
    } else {
      CommitKeepsOutbox(w);
    }
  }

  lemma QueueAccounts(w: World, e: Event, entry: Entry)
    requires e.QueueScan? && entry in Waiting(w.db.outbox)
    ensures Accounted(Step(w, e).db, entry)
  {
    var after := Step(w, e).db;
    if after != w.db {
      var b :| b in w.db.outbox && b.state == Pending && entry in b.entries;
      assert b in after.outbox;
    }
  }

  lemma StepAccounts(w: World, h: int, e: Event, entry: Entry)
    requires ClientAt(w, h) && entry in Waiting(w.db.outbox)
    ensures Accounted(Step(w, e).db, entry)
  {
    if e.QueueScan? {
      QueueAccounts(w, e, entry);
    } else if e == SplitBatches {
      SplitKeepsWaiting(w.db, MANIFEST_BATCH_SIZE);
      assert Step(w, e).db in {w.db, Split(w.db, MANIFEST_BATCH_SIZE)};
    } else if e == FinishResult {
      assert Step(w, e) == StepFinish(w);
      FinishAccounts(w, h, entry);
    } else if e == Commit {
      assert Step(w, e) == StepCommit(w);
      CommitAccounts(w, h, entry);
    } else {
      OthersKeepOutbox(w, e);
    }
  }

  /** No step loses an entry that waits. */
  lemma NoEntryIsLost(start: World, events: seq<Event>, e: Event, entry: Entry)
    requires Fresh(start)
    requires entry in Waiting(Run(start, events).db.outbox)
    ensures Accounted(Step(Run(start, events), e).db, entry)
  {
    var h := ClientRunKeeps(start, events);
    StepAccounts(Run(start, events), h, e, entry);
  }

  // ---------- the batches an import captured ----------

  ghost predicate AllDiscarded(outbox: seq<Batch>, captured: seq<nat>) {
    forall b :: b in outbox && b.id in captured ==> b.state == Discarded
  }

  /** What a step that ends the active item `i` has done: either every captured row
      is applied and the captured batches are discarded, or the outbox is as it was. */
  ghost predicate EndsWell(before: Db, after: Db, i: nat)
    requires i < |before.bulks| && i < |after.bulks|
  {
    var item := before.bulks[i];
    if after.bulks[i].state == Applied then
      && item.appliedThrough == item.artifact.entryCount == |RowsOf(before.outbox, item.captured)|
      && InEffect(after.known, RowsOf(before.outbox, item.captured))
      && AllPending(before.outbox, item.captured) && AllDiscarded(after.outbox, item.captured)
      && after.outbox == DiscardPending(before.outbox, SetOf(item.captured))
    else after.outbox == before.outbox && AllPending(after.outbox, item.captured)
  }

  lemma DiscardedAll(outbox: seq<Batch>, nextId: nat, captured: seq<nat>)
    requires UniqueRows(outbox, nextId) && AllPending(outbox, captured)
    ensures AllDiscarded(DiscardPending(outbox, SetOf(captured)), captured)
  {
    var after := DiscardPending(outbox, SetOf(captured));
    forall b | b in after && b.id in captured ensures b.state == Discarded {
      var i :| 0 <= i < |after| && after[i] == b;
      var p :| p in outbox && p.id == b.id && p.state == Pending;
      UniqueById(outbox, nextId, p);
      assert outbox[i] == p;
    }
  }

  lemma FinishEnds(w: World, h: int, i: nat)
    requires ClientAt(w, h) && i < |w.db.bulks| && !Terminal(w.db.bulks[i].state)
    requires i < |StepFinish(w).db.bulks| && Terminal(StepFinish(w).db.bulks[i].state)
    ensures EndsWell(w.db, StepFinish(w).db, i)
  {
    assert i == h;
    if w.pc.ApplyingPages? {
      HeldItem(w, h, w.pc.bulk);
      if CompleteBulk(w.db, w.pc.bulk).Success? {
        AllRowsKnown(w.db, h);
        DiscardedAll(w.db.outbox, w.db.nextId, w.db.bulks[h].captured);
      } else {
        FallBackKeepsOutbox(w, w.pc.bulk, FailedPermanent);
      }
    }
  }

  /** Only finishing marks an item applied. */
  lemma BulkRequestsDoNotApply(w: World, e: Event, i: nat)
    requires e.StatusUnusable? || e.CreateRequest? || e.RequestRejected? || e.CompleteRequest? || e.CompleteUnusable?
    requires i < |w.db.bulks| && w.db.bulks[i].state != Applied
    ensures i < |Step(w, e).db.bulks| && Step(w, e).db.bulks[i].state != Applied
  {
  }

  lemma OpeningDoesNotApply(w: World, fileExists: bool, i: nat)
    requires i < |w.db.bulks| && w.db.bulks[i].state != Applied
    ensures i < |StepOpenResult(w, fileExists).db.bulks|
    ensures StepOpenResult(w, fileExists).db.bulks[i].state != Applied
  {
  }

  lemma BulkResultsDoNotApply(w: World, e: Event, i: nat)
    requires e.Decide? || e.ApplyPage? || e.NotAwaitingUpload? || e.ReadStatus?
    requires i < |w.db.bulks| && w.db.bulks[i].state != Applied
    ensures i < |Step(w, e).db.bulks| && Step(w, e).db.bulks[i].state != Applied
  {
  }

  lemma CommitDoesNotApply(w: World, i: nat)
    requires i < |w.db.bulks| && w.db.bulks[i].state != Applied
    ensures i < |StepCommit(w).db.bulks| && StepCommit(w).db.bulks[i].state != Applied
  {
  }

  lemma OnlyFinishApplies(w: World, e: Event, i: nat)
    requires e != FinishResult && i < |w.db.bulks| && w.db.bulks[i].state != Applied
    ensures i < |Step(w, e).db.bulks| && Step(w, e).db.bulks[i].state != Applied
  {
    if e.StatusUnusable? || e.CreateRequest? || e.RequestRejected? || e.CompleteRequest? || e.CompleteUnusable? {
      BulkRequestsDoNotApply(w, e, i);
    } else if e.Decide? || e.ApplyPage? || e.NotAwaitingUpload? || e.ReadStatus? {
      BulkResultsDoNotApply(w, e, i);
    } else if e.OpenResult? {
      OpeningDoesNotApply(w, e.fileExists, i);
    } else if e == Commit {
      CommitDoesNotApply(w, i);
    }
  }

  lemma StepEndsWell(w: World, h: int, e: Event, i: nat)
    requires ClientAt(w, h) && i < |w.db.bulks| && !Terminal(w.db.bulks[i].state)
    requires i < |Step(w, e).db.bulks| && Terminal(Step(w, e).db.bulks[i].state)
    ensures EndsWell(w.db, Step(w, e).db, i)
  {
    assert i == h;
    if e == FinishResult {
      FinishEnds(w, h, i);
    } else {
      OnlyFinishApplies(w, e, i);
      if WritesOutbox(e) {
        if e == Commit && !w.pc.Answered? { CommitKeepsOutbox(w); }
      } else {
        OthersKeepOutbox(w, e);
      }
    }
  }

  /** At the pages of a result, completing the item succeeds exactly when every row is
      applied. */
  lemma CompletesExactly(w: World, h: int)
    requires ClientAt(w, h) && w.pc.ApplyingPages?
    ensures FindBulk(w.db.bulks, w.pc.bulk) == Some(h)
    ensures CompleteBulk(w.db, w.pc.bulk).Success?
       <==> w.db.bulks[h].appliedThrough == |RowsOf(w.db.outbox, w.db.bulks[h].captured)|
  {
    HeldItem(w, h, w.pc.bulk);
    forall id | id in SetOf(w.db.bulks[h].captured) ensures id in IdsOf(w.db.outbox) {
      var b :| b in w.db.outbox && b.id == id && b.state == Pending;
    }
  }

  /** The event finishes the result of the item, all of whose rows are applied. */
  ghost predicate Finishes(w: World, e: Event, i: nat)
    requires i < |w.db.bulks|
  {
    && e == FinishResult && w.pc == ApplyingPages(w.db.bulks[i].id)
    && w.db.bulks[i].appliedThrough == |RowsOf(w.db.outbox, w.db.bulks[i].captured)|
  }

  lemma StepAppliesExactly(w: World, h: int, e: Event, i: nat)
    requires ClientAt(w, h) && i < |w.db.bulks| && !Terminal(w.db.bulks[i].state)
    ensures i < |Step(w, e).db.bulks| && (Step(w, e).db.bulks[i].state == Applied <==> Finishes(w, e, i))
  {
    assert i == h;
    if e == FinishResult {
      assert Step(w, e) == StepFinish(w);
      if w.pc.ApplyingPages? {
        CompletesExactly(w, h);
        if CompleteBulk(w.db, w.pc.bulk).Failure? { FallBackParts(w, h, w.pc.bulk, FailedPermanent); }
      }
    } else {
      OnlyFinishApplies(w, e, i);
    }
  }

  /** In every run, the result of an import whose rows are all applied is completed when
      it is finished: the item ends applied, its batches are discarded, nothing else is
      released, and the engine goes on scanning, or starts over when work is left. */
  lemma FullyAppliedCompletes(start: World, events: seq<Event>, i: nat)
    requires Fresh(start) && i < |Run(start, events).db.bulks| && Finishes(Run(start, events), FinishResult, i)
    ensures var w, after := Run(start, events), Step(Run(start, events), FinishResult);
            && i < |after.db.bulks| && after.db.bulks[i].state == Applied
            && AllPending(w.db.outbox, w.db.bulks[i].captured) && AllDiscarded(after.db.outbox, w.db.bulks[i].captured)
            && after.db.outbox == DiscardPending(w.db.outbox, SetOf(w.db.bulks[i].captured))
            && after.db.known == w.db.known && InEffect(w.db.known, RowsOf(w.db.outbox, w.db.bulks[i].captured))
            && after.pc == if PendingOf(after.db.outbox) == [] then Scanning else Idle
  {
    var w := Run(start, events);
    var h := ClientRunKeeps(start, events);
    CompletesExactly(w, h);
    assert i == h by { FindHeld(w.db.bulks, i); }
    assert Step(w, FinishResult) == StepFinish(w);
    CompletedParts(w, h);
    AllRowsKnown(w.db, h);
    DiscardedAll(w.db.outbox, w.db.nextId, w.db.bulks[h].captured);
  }

  /** In every run, the step that ends an active item either has applied all of its
      rows and discards its batches with it, or leaves its batches pending; and it
      applies the item exactly when it finishes a result whose rows are all applied. */
  lemma CapturedWorkIsSafe(start: World, events: seq<Event>, e: Event, i: nat)
    requires Fresh(start)
    requires i < |Run(start, events).db.bulks| && !Terminal(Run(start, events).db.bulks[i].state)
    requires i < |Step(Run(start, events), e).db.bulks| && Terminal(Step(Run(start, events), e).db.bulks[i].state)
    ensures EndsWell(Run(start, events).db, Step(Run(start, events), e).db, i)
    ensures Step(Run(start, events), e).db.bulks[i].state == Applied <==> Finishes(Run(start, events), e, i)
  {
    var h := ClientRunKeeps(start, events);
    StepAppliesExactly(Run(start, events), h, e, i);
    StepEndsWell(Run(start, events), h, e, i);
  }

  // ---------- resuming a partly applied result ----------

  function PageOf(w: World, h: int, size: nat, results: seq<EntryResult>): seq<Row>
    requires 0 <= h < |w.db.bulks| && |results| == |RowsOf(w.db.outbox, w.db.bulks[h].captured)|
    requires w.db.bulks[h].appliedThrough + size <= |results|
  {
    NextPage(RowsOf(w.db.outbox, w.db.bulks[h].captured), results, w.db.bulks[h].appliedThrough, size)
  }

  /** The import succeeded, and the next page of its result has no fault. */
  ghost predicate Resumable(w: World, h: int, b: nat, size: nat, results: seq<EntryResult>) {
    && Holds(w, h, b) && w.db.bulks[h].serverImport.Some?
    && var item := w.db.bulks[h];
       var rows := RowsOf(w.db.outbox, item.captured);
       && |rows| == item.artifact.entryCount && Truthful(rows, results)
       && 1 <= size <= BULK_RESULT_APPLY_PAGE_SIZE && item.appliedThrough + size <= |rows|
       && FirstError(PageOf(w, h, size, results), item.appliedThrough, item.artifact.entryCount) == None
  }

  function Succeeds(w: World, h: int): Db
    requires 0 <= h < |w.db.bulks|
  {
    w.db.(bulks := w.db.bulks[h := w.db.bulks[h].(state := At(Succeeded), serverStatus := Some(Succeeded))])
  }

  lemma HeldAtPoll(w: World, h: int, b: nat)
    requires ClientAt(w, h) && w.pc == Polled(b, Succeeded)
    ensures Holds(w, h, b) && FindBulk(w.db.bulks, b) == Some(h) && FindBulk(Succeeds(w, h).bulks, b) == Some(h)
    ensures AllPending(w.db.outbox, w.db.bulks[h].captured)
  {
    FindHeld(w.db.bulks, h);
    FindHeld(Succeeds(w, h).bulks, h);
  }

  lemma SuccessRecorded(w: World, h: int, b: nat)
    requires w.pc == Polled(b, Succeeded) && h >= 0 && FindBulk(w.db.bulks, b) == Some(h)
    ensures Step(w, Commit) == World(Succeeds(w, h), w.server, Polling(b, Succeeded))
  {
    assert Step(w, Commit) == Record(w, b, Succeeded, Polling(b, Succeeded));
  }

  /** The item once its result is open: a result that is saved and still on disk is
      not saved again. */
  function OpenedItem(item: BulkItem, fileExists: bool): BulkItem {
    if item.resultSaved && fileExists then item else SavedItem(item)
  }

  function Opened(db: Db, h: int, fileExists: bool): Db
    requires 0 <= h < |db.bulks|
  {
    db.(bulks := db.bulks[h := OpenedItem(db.bulks[h], fileExists)])
  }

  lemma ResultOpens(w: World, h: int, b: nat, fileExists: bool)
    requires w.pc == OpeningResult(b) && h >= 0 && FindBulk(w.db.bulks, b) == Some(h)
    requires AllPending(w.db.outbox, w.db.bulks[h].captured)
    requires |RowsOf(w.db.outbox, w.db.bulks[h].captured)| == w.db.bulks[h].artifact.entryCount
    requires w.db.bulks[h].serverImport.Some? && w.db.bulks[h].serverStatus == Some(Succeeded)
    ensures Step(w, OpenResult(fileExists)) == World(Opened(w.db, h, fileExists), w.server, ApplyingPages(b))
  {
    assert w.db.bulks[h := w.db.bulks[h]] == w.db.bulks;
    assert Step(w, OpenResult(fileExists)) == StepOpenResult(w, fileExists);
  }

  lemma PageSteps(w: World, h: int, b: nat, size: nat, results: seq<EntryResult>)
    requires w.pc == ApplyingPages(b) && FindBulk(w.db.bulks, b) == Some(h) && Resumable(w, h, b, size, results)
    ensures var r := ApplyRows(w.db, b, PageOf(w, h, size, results));
            Step(w, ApplyPage(size, results))
            == if r.Success? then w.(db := r.value.0) else FallBack(w, b, FailedPermanent)
  {
    assert Step(w, ApplyPage(size, results)) == StepApplyPage(w, size, results);
  }

  ghost predicate FellBack(w: World, after: World, h: int) {
    && after.pc == Flushing && after.db.outbox == w.db.outbox && after.db.known == w.db.known
    && 0 <= h < |w.db.bulks| && AllPending(after.db.outbox, w.db.bulks[h].captured)
    && h < |after.db.bulks| && after.db.bulks[h].state == At(FailedPermanent)
  }

  ghost predicate WentOn(w: World, after: World, h: int, size: nat) {
    && after.pc.ApplyingPages? && 0 <= h < |w.db.bulks| && h < |after.db.bulks|
    && after.db.bulks[h].appliedThrough == w.db.bulks[h].appliedThrough + size
  }

  lemma FallBackFell(w: World, h: int, b: nat)
    requires FindBulk(w.db.bulks, b) == Some(h) && h >= 0
    requires AllPending(w.db.outbox, w.db.bulks[h].captured)
    ensures FellBack(w, FallBack(w, b, FailedPermanent), h)
  {
  }

  lemma ClosedFallsBack(w: World, h: int, b: nat, size: nat, results: seq<EntryResult>)
    requires w.pc == ApplyingPages(b) && FindBulk(w.db.bulks, b) == Some(h) && Resumable(w, h, b, size, results)
    requires w.db.bulks[h].state == At(Succeeded) && AllPending(w.db.outbox, w.db.bulks[h].captured)
    ensures FellBack(w, Step(w, ApplyPage(size, results)), h)
  {
    PageSteps(w, h, b, size, results);
    assert PageOf(w, h, size, results) != [];
    assert ApplyRows(w.db, b, PageOf(w, h, size, results)) == Failure(NotVerified);
    FallBackFell(w, h, b);
  }

  lemma OpenGoesOn(w: World, h: int, b: nat, size: nat, results: seq<EntryResult>)
    requires w.pc == ApplyingPages(b) && FindBulk(w.db.bulks, b) == Some(h) && Resumable(w, h, b, size, results)
    requires w.db.bulks[h].state == ResultReady
    ensures WentOn(w, Step(w, ApplyPage(size, results)), h, size)
  {
    PageSteps(w, h, b, size, results);
    BulkRefinement.CleanPageApplies(w.db, b, h, PageOf(w, h, size, results));
    BulkRefinement.AcceptedPageParts(w.db, b, h, PageOf(w, h, size, results));
  }

  /** The engine stores the success, opens the result and applies a page. */
  ghost function Resumed(w: World, fileExists: bool, size: nat, results: seq<EntryResult>): World {
    Step(Step(Step(Step(w, Commit), Decide(false)), OpenResult(fileExists)), ApplyPage(size, results))
  }

  lemma DecidesToOpen(db: Db, s: Server, b: nat)
    ensures Step(World(db, s, Polling(b, Succeeded)), Decide(false)) == World(db, s, OpeningResult(b))
  {
  }

  /** From a stored success to the pages. */
  lemma StoredSuccessOpens(db: Db, s: Server, h: int, b: nat, fileExists: bool)
    requires h >= 0 && FindBulk(db.bulks, b) == Some(h) && AllPending(db.outbox, db.bulks[h].captured)
    requires |RowsOf(db.outbox, db.bulks[h].captured)| == db.bulks[h].artifact.entryCount
    requires db.bulks[h].serverImport.Some? && db.bulks[h].serverStatus == Some(Succeeded)
    ensures Step(Step(World(db, s, Polling(b, Succeeded)), Decide(false)), OpenResult(fileExists))
         == World(Opened(db, h, fileExists), s, ApplyingPages(b))
    ensures FindBulk(Opened(db, h, fileExists).bulks, b) == Some(h)
  {
    DecidesToOpen(db, s, b);
    ResultOpens(World(db, s, OpeningResult(b)), h, b, fileExists);
    BulkRefinement.FindBulkAfterUpdate(db.bulks, b, h, OpenedItem(db.bulks[h], fileExists));
  }

  lemma SuccessOpens(w: World, h: int, b: nat, fileExists: bool)
    requires ClientAt(w, h) && w.pc == Polled(b, Succeeded) && Holds(w, h, b) && w.db.bulks[h].serverImport.Some?
    requires |RowsOf(w.db.outbox, w.db.bulks[h].captured)| == w.db.bulks[h].artifact.entryCount
    ensures Step(Step(Step(w, Commit), Decide(false)), OpenResult(fileExists))
         == World(Opened(Succeeds(w, h), h, fileExists), w.server, ApplyingPages(b))
    ensures FindBulk(Opened(Succeeds(w, h), h, fileExists).bulks, b) == Some(h)
  {
    HeldAtPoll(w, h, b);
    SuccessRecorded(w, h, b);
    StoredSuccessOpens(Succeeds(w, h), w.server, h, b, fileExists);
  }

  lemma StaysResumable(w: World, h: int, b: nat, fileExists: bool, size: nat, results: seq<EntryResult>)
    requires Resumable(w, h, b, size, results)
    ensures Resumable(World(Opened(Succeeds(w, h), h, fileExists), w.server, ApplyingPages(b)), h, b, size, results)
  {
  }

  /** When a result with rows left is taken up again, the success that is stored on the
      way back has closed the item for pages.  A result that is saved and still on disk
      is not saved again, so its first page is refused and the engine falls back, with
      the captured batches pending and nothing more applied; any other result is
      fetched and saved, and goes on from the cursor. */
  lemma ResumesExactly(w: World, h: int, b: nat, fileExists: bool, size: nat, results: seq<EntryResult>)
    requires ClientAt(w, h) && w.pc == Polled(b, Succeeded) && Resumable(w, h, b, size, results)
    ensures if w.db.bulks[h].resultSaved && fileExists
            then FellBack(w, Resumed(w, fileExists, size, results), h)
            else WentOn(w, Resumed(w, fileExists, size, results), h, size)
  {
    var ready := World(Opened(Succeeds(w, h), h, fileExists), w.server, ApplyingPages(b));
    HeldAtPoll(w, h, b);
    SuccessOpens(w, h, b, fileExists);
    StaysResumable(w, h, b, fileExists, size, results);
    if w.db.bulks[h].resultSaved && fileExists {
      ClosedFallsBack(ready, h, b, size, results);
    } else {
      OpenGoesOn(ready, h, b, size, results);
    }
  }

  /** The same in every run that polls a success. */
  lemma RunsResumeExactly(start: World, events: seq<Event>, b: nat, fileExists: bool, size: nat,
                          results: seq<EntryResult>)
    returns (h: int)
    requires Fresh(start) && Run(start, events).pc == Polled(b, Succeeded)
    ensures Holds(Run(start, events), h, b)
    ensures Resumable(Run(start, events), h, b, size, results) ==>
              var w := Run(start, events);
              if w.db.bulks[h].resultSaved && fileExists then FellBack(w, Resumed(w, fileExists, size, results), h)
              else WentOn(w, Resumed(w, fileExists, size, results), h, size)
  {
    h := ClientRunKeeps(start, events);
    if Resumable(Run(start, events), h, b, size, results) {
      ResumesExactly(Run(start, events), h, b, fileExists, size, results);
    }
  }
}
