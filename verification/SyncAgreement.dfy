/** When exactly the two inventories agree up to what still waits: in every run, with
    bulk imports, crashes, lost answers, expired replies and given-up imports. */
module SyncAgreement {
  import opened Options
  import opened Manifest
  import opened Outbox
  import opened Planning
  import opened SyncProtocol
  import opened SyncInvariant
  import opened SyncSteps
  import opened SyncTables
  import opened SyncClient
  import opened SyncSafety
  import opened SyncBulk
  import opened SyncTheorems
  import opened SyncRecords
  import opened SyncApart
  import BulkRefinement
  import SyncExact

  // ---------- what may differ ----------

  /** The entries that excuse a difference: those that wait for delivery and, read
      loosely, also those noted as refused. */
  ghost function Excuses(outbox: seq<Batch>, loose: bool): set<Entry> {
    if loose then Waiting(outbox) + Noted(outbox) else Waiting(outbox)
  }

  /** The server holds the effect of one of the entries at the item. */
  ghost predicate HoldsOne(occurrences: Inventory, entries: set<Entry>, item: string) {
    exists e :: e in entries && e.item == item && Lookup(occurrences, item) == Effect(e)
  }

  ghost predicate SettledAt(known: Inventory, occurrences: Inventory, excuses: set<Entry>, item: string) {
    Lookup(known, item) == Lookup(occurrences, item) || HoldsOne(occurrences, excuses, item)
  }

  /** The inventories differ only where the server holds the effect of an entry that
      still waits for delivery (or, read loosely, is noted as refused). */
  ghost predicate Settled(w: World, loose: bool) {
    forall item :: SettledAt(w.db.known, w.server.occurrences, Excuses(w.db.outbox, loose), item)
  }

  // ---------- the guards, looked at before the event ----------

  /** The server holds the effect of the entry, and the client does not know it. */
  ghost predicate Hidden(w: World, e: Entry) {
    Lookup(w.server.occurrences, e.item) == Effect(e) && Lookup(w.db.known, e.item) != Effect(e)
  }

  /** The entry is in effect on the server (or, read loosely, a refused one is). */
  ghost predicate InStep(w: World, e: Entry, loose: bool) {
    Lookup(w.server.occurrences, e.item) == Effect(e)
    || (loose && HoldsOne(w.server.occurrences, Noted(w.db.outbox), e.item))
  }

  /** What the answer accepts is in effect, and what it refuses is not hidden. */
  ghost predicate AnswerGuard(w: World, b: Batch, response: Option<Response>, loose: bool) {
    forall x :: x in b.entries ==>
      if x in RefusedBy(b, response) then loose || !Hidden(w, x) else InStep(w, x, loose)
  }

  /** The rows are answered, and the size of the page fits. */
  ghost predicate Offered(item: BulkItem, rows: seq<Entry>, size: nat, results: seq<EntryResult>) {
    Truthful(rows, results) && 1 <= size <= BULK_RESULT_APPLY_PAGE_SIZE && item.appliedThrough + size <= |rows|
  }

  /** The rows a page would apply: none when it is refused. */
  ghost function AppliedRows(w: World, size: nat, results: seq<EntryResult>): seq<Entry> {
    if !w.pc.ApplyingPages? || FindBulk(w.db.bulks, w.pc.bulk).None? then []
    else
      var item := w.db.bulks[FindBulk(w.db.bulks, w.pc.bulk).value];
      var rows := RowsOf(w.db.outbox, item.captured);
      if Offered(item, rows, size, results)
         && ApplyRows(w.db, item.id, NextPage(rows, results, item.appliedThrough, size)).Success?
      then rows[item.appliedThrough..item.appliedThrough + size]
      else []
  }

  /** The client knows the occurrence, or an excusing entry has it as its effect. */
  ghost predicate MayAppear(w: World, row: Entry, loose: bool) {
    || Lookup(w.db.known, row.item) == Some(OccurrenceOf(row))
    || exists e :: e in Excuses(w.db.outbox, loose) && e.item == row.item && Effect(e) == Some(OccurrenceOf(row))
  }

  predicate Merges(s: Server, i: nat) {
    i < |s.imports| && s.imports[i].status == Running && !s.imports[i].merged
  }

  /** Every row the merge writes may appear. */
  ghost predicate MergeGuard(w: World, rows: seq<Entry>, refused: set<string>, loose: bool) {
    forall k :: 0 <= k < |rows| && !MergeRejects(rows, k, refused) ==> MayAppear(w, rows[k], loose)
  }

  ghost predicate Guarded(w: World, e: Event, loose: bool) {
    match e
    case Commit => w.pc.Answered? ==> AnswerGuard(w, w.pc.batch, w.pc.response, loose)
    case ApplyPage(size, results) => forall x :: x in AppliedRows(w, size, results) ==> InStep(w, x, loose)
    case ServerMerge(i, refused) => Merges(w.server, i) ==> MergeGuard(w, w.server.imports[i].rows, refused, loose)
    case _ => true
  }

  // ---------- steps that leave both inventories alone ----------

  lemma QuietSettles(w: World, after: World, loose: bool)
    requires Settled(w, loose)
    requires after.db.known == w.db.known && after.server.occurrences == w.server.occurrences
    requires Waiting(w.db.outbox) <= Waiting(after.db.outbox) && Noted(w.db.outbox) <= Noted(after.db.outbox)
    ensures Settled(after, loose)
  {
    forall item ensures SettledAt(after.db.known, after.server.occurrences, Excuses(after.db.outbox, loose), item) {
      assert SettledAt(w.db.known, w.server.occurrences, Excuses(w.db.outbox, loose), item);
    }
  }

  lemma BulkRequestsAreQuiet(w: World, e: Event)
    requires e.StatusUnusable? || e.CreateRequest? || e.RequestRejected? || e.CompleteRequest? || e.CompleteUnusable?
    ensures Step(w, e).db.known == w.db.known && Step(w, e).server.occurrences == w.server.occurrences
  {
  }

  lemma BulkAnswersAreQuiet(w: World, e: Event)
    requires e.Decide? || e.OpenResult? || e.NotAwaitingUpload? || e.ReadStatus?
    ensures Step(w, e).db.known == w.db.known && Step(w, e).server.occurrences == w.server.occurrences
  {
  }

  lemma QueueingIsQuiet(w: World, e: Event)
    requires e.Start? || e.Crash? || e.QueueScan? || e.Choose? || e.SplitBatches? || e.SubmitRejected?
    ensures Step(w, e).db.known == w.db.known && Step(w, e).server.occurrences == w.server.occurrences
  {
  }

  lemma StatusesAreQuiet(w: World, e: Event)
    requires e.ServerStart? || e.ServerRetry? || e.ServerFinish? || e.ServerAbort?
    ensures Step(w, e).db == w.db && Step(w, e).server.occurrences == w.server.occurrences
  {
  }

  lemma OtherCommitIsQuiet(w: World)
    requires !w.pc.Answered?
    ensures StepCommit(w).db.known == w.db.known && StepCommit(w).server == w.server
    ensures StepCommit(w).db.outbox == w.db.outbox
  {
  }

  lemma QueuedKeepsWaiting(w: World, e: Event)
    requires e.QueueScan?
    ensures Waiting(w.db.outbox) <= Waiting(Step(w, e).db.outbox)
  {
    forall x | x in Waiting(w.db.outbox) ensures x in Waiting(Step(w, e).db.outbox) {
      var b :| b in w.db.outbox && b.state == Pending && x in b.entries;
      assert b in Step(w, e).db.outbox;
    }
  }

  lemma QueuedKeepsNoted(w: World, e: Event)
    requires e.QueueScan?
    ensures Noted(w.db.outbox) <= Noted(Step(w, e).db.outbox)
  {
    forall x | x in Noted(w.db.outbox) ensures x in Noted(Step(w, e).db.outbox) {
      var b :| b in w.db.outbox && b.state == Failed && x in b.failures;
      assert b in Step(w, e).db.outbox;
    }
  }

  lemma QueueingSettles(w: World, h: int, e: Event, loose: bool)
    requires ClientAt(w, h) && Settled(w, loose) && (e.QueueScan? || e.SplitBatches?)
    ensures Settled(Step(w, e), loose)
  {
    QueueingIsQuiet(w, e);
    if e.QueueScan? {
      QueuedKeepsWaiting(w, e);
      QueuedKeepsNoted(w, e);
    } else {
      SplitKeepsWaiting(w.db, MANIFEST_BATCH_SIZE);
      SplitKeepsNoted(w.db, MANIFEST_BATCH_SIZE);
      assert Step(w, e).db.outbox in {w.db.outbox, Split(w.db, MANIFEST_BATCH_SIZE).outbox};
    }
    QuietSettles(w, Step(w, e), loose);
  }

  lemma OtherSettles(w: World, e: Event, loose: bool)
    requires Settled(w, loose) && !WritesOutbox(e) && !e.SubmitBatch? && !e.ServerMerge? && !e.ApplyPage?
    ensures Settled(Step(w, e), loose)
  {
    OthersKeepOutbox(w, e);
    if e.StatusUnusable? || e.CreateRequest? || e.RequestRejected? || e.CompleteRequest? || e.CompleteUnusable? {
      BulkRequestsAreQuiet(w, e);
    } else if e.Decide? || e.OpenResult? || e.NotAwaitingUpload? || e.ReadStatus? {
      BulkAnswersAreQuiet(w, e);
    } else if ServerEvent(e) {
      StatusesAreQuiet(w, e);
    } else {
      QueueingIsQuiet(w, e);
    }
    QuietSettles(w, Step(w, e), loose);
  }

  // ---------- a batch request ----------

  /** What the server writes for a batch are effects of entries that wait. */
  lemma WritesSettle(w: World, s: Server, loose: bool)
    requires Settled(w, loose) && Writes(w.server.occurrences, s.occurrences, w.db.outbox)
    ensures Settled(w.(server := s), loose)
  {
    forall item ensures SettledAt(w.db.known, s.occurrences, Excuses(w.db.outbox, loose), item) {
      assert SettledAt(w.db.known, w.server.occurrences, Excuses(w.db.outbox, loose), item);
      if Explained(w.db.outbox, s.occurrences, item) {
        var e :| e in Waiting(w.db.outbox) && e.item == item && Lookup(s.occurrences, item) == Effect(e);
        assert e in Excuses(w.db.outbox, loose);
      }
    }
  }

  lemma SubmitSettles(w: World, h: int, lost: bool, v: Verdict, expired: bool, loose: bool)
    requires ClientAt(w, h) && Settled(w, loose)
    ensures Settled(StepSubmit(w, lost, v, expired), loose)
  {
    var pending := PendingOf(w.db.outbox);
    var after := StepSubmit(w, lost, v, expired);
    if w.pc == Sending && pending != [] && !(pending[0].key in w.server.replies && !expired) {
      SubmitClient(w, h, lost, v, expired);
      ProcessWrites(w.db.outbox, w.server.occurrences, pending[0], v);
      assert after.server.occurrences
          == Process(w.server.occurrences, pending[0].entries, pending[0].reliable, v).0;
      WritesSettle(w, after.server, loose);
      QuietSettles(w.(server := after.server), after, loose);
    } else {
      QuietSettles(w, after, loose);
    }
  }

  // ---------- storing an answer ----------

  lemma RefusedAreEntries(b: Batch, response: Option<Response>)
    ensures forall x :: x in RefusedBy(b, response) ==> x in b.entries
  {
    if response.Some? { AcceptedOrRefused(b.entries, b.reliable, response.value.results); }
  }

  lemma BatchWaits(w: World, b: Batch, response: Option<Response>)
    requires ClientAt(w, -1) && w.pc == Answered(b, response)
    ensures forall x :: x in b.entries ==> x in Waiting(w.db.outbox)
    ensures forall x, y :: x in b.entries && y in Waiting(w.db.outbox) && x.item == y.item ==> x == y
  {
  }

  /** After an answer the client knows an accepted entry of the item, or what it knew. */
  lemma StoredKnown(w: World, b: Batch, response: Option<Response>, item: string)
    requires ClientAt(w, -1) && w.pc == Answered(b, response)
    ensures var known := Stored(w.db, b, response).known;
            || (Lookup(known, item) == Lookup(w.db.known, item)
                && forall x :: x in b.entries && x.item == item ==> x in RefusedBy(b, response))
            || (exists x :: x in b.entries && x.item == item && x !in RefusedBy(b, response)
                            && Lookup(known, item) == Effect(x))
  {
    if response.Some? { AnswerKnown(w, b, response.value, item); }
  }

  lemma AnswerKnown(w: World, b: Batch, r: Response, item: string)
    requires ClientAt(w, -1) && w.pc == Answered(b, Some(r))
    ensures var known := Acknowledge(w.db, b, r).known;
            || (Lookup(known, item) == Lookup(w.db.known, item)
                && forall x :: x in b.entries && x.item == item ==> x in RefusedBy(b, Some(r)))
            || (exists x :: x in b.entries && x.item == item && x !in RefusedBy(b, Some(r))
                            && Lookup(known, item) == Effect(x))
  {
    var ds := Accepted(b.entries, b.reliable, r.results);
    AcceptedOrRefused(b.entries, b.reliable, r.results);
    BatchWaits(w, b, Some(r));
    forall d | d in ds ensures d.0.operation != OtherOperation { assert d.0 in Waiting(w.db.outbox); }
    DeliverEffects(w.db.source, StoreOf(w.db), ds, item);
  }

  /** What the client knows of an entry's item once its answer is stored. */
  lemma LearnedAt(w: World, b: Batch, response: Option<Response>, x: Entry)
    requires ClientAt(w, -1) && w.pc == Answered(b, response) && x in b.entries
    ensures Lookup(Stored(w.db, b, response).known, x.item)
         == if x in RefusedBy(b, response) then Lookup(w.db.known, x.item) else Effect(x)
  {
    StoredKnown(w, b, response, x.item);
    BatchWaits(w, b, response);
  }

  lemma ResolvedNotes(outbox: seq<Batch>, after: seq<Batch>, b: Batch, state: BatchState, failures: seq<Entry>)
    requires Resolves(outbox, after, b, state, failures)
    ensures forall x :: x in Noted(after) ==> x in Noted(outbox) || x in failures
  {
    forall x | x in Noted(after) && x !in Noted(outbox) ensures x in failures {
      var c :| c in after && c.state == Failed && x in c.failures;
      var i :| 0 <= i < |after| && after[i] == c;
      assert outbox[i] in outbox;
    }
  }

  /** An answer notes exactly what it refuses. */
  lemma StoredNotes(w: World, b: Batch, response: Option<Response>)
    requires ClientAt(w, -1) && w.pc == Answered(b, response)
    ensures var after := Stored(w.db, b, response).outbox;
            forall x :: x in Noted(after) <==> x in Noted(w.db.outbox) || x in RefusedBy(b, response)
  {
    var after := Stored(w.db, b, response).outbox;
    StoredParts(w, b, response);
    ResolvedTables(w.db.outbox, after, b, StoredState(b, response), RefusedBy(b, response));
    ResolvedNotes(w.db.outbox, after, b, StoredState(b, response), RefusedBy(b, response));
  }

  lemma StoredWaiting(w: World, b: Batch, response: Option<Response>)
    requires ClientAt(w, -1) && w.pc == Answered(b, response)
    ensures var after := Stored(w.db, b, response).outbox;
            Waiting(after) <= Waiting(w.db.outbox)
            && forall e :: e in Waiting(w.db.outbox) ==> e in Waiting(after) || e in b.entries
  {
    StoredParts(w, b, response);
    ResolvedTables(w.db.outbox, Stored(w.db, b, response).outbox, b, StoredState(b, response), RefusedBy(b, response));
  }

  lemma NothingWaitsFor(w: World, b: Batch, response: Option<Response>, x: Entry)
    requires ClientAt(w, -1) && Apart(w.db.outbox) && w.pc == Answered(b, response) && x in b.entries
    ensures forall e :: e in Waiting(Stored(w.db, b, response).outbox) ==> e.item != x.item
  {
    var after := Stored(w.db, b, response).outbox;
    StoredParts(w, b, response);
    var at :| 0 <= at < |w.db.outbox| && w.db.outbox[at] == b;
    forall e | e in EntriesOf(PendingOf(after)) ensures e.item != x.item {
      ResolvedIsAlone(w.db.outbox, after, at, x, e);
    }
    WaitingIsPending(after);
  }

  /** At an accepted entry the inventories settle exactly when it is in step. */
  lemma AcceptedSettles(w: World, b: Batch, response: Option<Response>, x: Entry, loose: bool)
    requires ClientAt(w, -1) && Apart(w.db.outbox) && w.pc == Answered(b, response)
    requires x in b.entries && x !in RefusedBy(b, response)
    ensures var after := Stored(w.db, b, response);
            SettledAt(after.known, w.server.occurrences, Excuses(after.outbox, loose), x.item) <==> InStep(w, x, loose)
  {
    LearnedAt(w, b, response, x);
    StoredNotes(w, b, response);
    NothingWaitsFor(w, b, response, x);
    RefusedAreEntries(b, response);
    BatchWaits(w, b, response);
    SameNotes(w, b, response, x);
  }

  /** No note for the item of an accepted entry is new. */
  lemma SameNotes(w: World, b: Batch, response: Option<Response>, x: Entry)
    requires ClientAt(w, -1) && w.pc == Answered(b, response) && x in b.entries && x !in RefusedBy(b, response)
    ensures HoldsOne(w.server.occurrences, Noted(Stored(w.db, b, response).outbox), x.item)
       <==> HoldsOne(w.server.occurrences, Noted(w.db.outbox), x.item)
  {
    StoredNotes(w, b, response);
    RefusedAreEntries(b, response);
    BatchWaits(w, b, response);
  }

  /** At a refused entry they settle exactly when it was not hidden, or it is noted. */
  lemma RefusedSettles(w: World, b: Batch, response: Option<Response>, x: Entry, loose: bool)
    requires ClientAt(w, -1) && Apart(w.db.outbox) && w.pc == Answered(b, response)
    requires x in RefusedBy(b, response) && Settled(w, loose)
    ensures var after := Stored(w.db, b, response);
            SettledAt(after.known, w.server.occurrences, Excuses(after.outbox, loose), x.item)
            <==> loose || !Hidden(w, x)
  {
    RefusedAreEntries(b, response);
    LearnedAt(w, b, response, x);
    StoredNotes(w, b, response);
    NothingWaitsFor(w, b, response, x);
    BatchWaits(w, b, response);
    assert SettledAt(w.db.known, w.server.occurrences, Excuses(w.db.outbox, loose), x.item);
  }

  lemma ElsewhereSettles(w: World, b: Batch, response: Option<Response>, item: string, loose: bool)
    requires ClientAt(w, -1) && w.pc == Answered(b, response) && Settled(w, loose)
    requires forall x :: x in b.entries ==> x.item != item
    ensures var after := Stored(w.db, b, response);
            SettledAt(after.known, w.server.occurrences, Excuses(after.outbox, loose), item)
  {
    StoredKnown(w, b, response, item);
    StoredNotes(w, b, response);
    StoredWaiting(w, b, response);
    assert SettledAt(w.db.known, w.server.occurrences, Excuses(w.db.outbox, loose), item);
  }

  lemma EntrySettles(w: World, b: Batch, response: Option<Response>, x: Entry, loose: bool)
    requires ClientAt(w, -1) && Apart(w.db.outbox) && w.pc == Answered(b, response)
    requires x in b.entries && Settled(w, loose)
    ensures var after := Stored(w.db, b, response);
            SettledAt(after.known, w.server.occurrences, Excuses(after.outbox, loose), x.item)
            <==> if x in RefusedBy(b, response) then loose || !Hidden(w, x) else InStep(w, x, loose)
  {
    if x in RefusedBy(b, response) {
      RefusedSettles(w, b, response, x, loose);
    } else {
      AcceptedSettles(w, b, response, x, loose);
    }
  }

  lemma {:induction false} AnswerSettlesExactly(w: World, h: int, loose: bool)
    requires ClientAt(w, h) && Apart(w.db.outbox) && Settled(w, loose) && w.pc.Answered?
    ensures Settled(StepCommit(w), loose) <==> AnswerGuard(w, w.pc.batch, w.pc.response, loose)
  {
    var b, response := w.pc.batch, w.pc.response;
    var after := Stored(w.db, b, response);
    StoredParts(w, b, response);
    forall x | x in b.entries
      ensures SettledAt(after.known, w.server.occurrences, Excuses(after.outbox, loose), x.item)
              <==> if x in RefusedBy(b, response) then loose || !Hidden(w, x) else InStep(w, x, loose)
    {
      EntrySettles(w, b, response, x, loose);
    }
    forall item | forall x :: x in b.entries ==> x.item != item
      ensures SettledAt(after.known, w.server.occurrences, Excuses(after.outbox, loose), item)
    {
      ElsewhereSettles(w, b, response, item, loose);
    }
  }

  lemma CommitSettlesExactly(w: World, h: int, loose: bool)
    requires ClientAt(w, h) && Apart(w.db.outbox) && Settled(w, loose)
    ensures Settled(StepCommit(w), loose) <==> Guarded(w, Commit, loose)
  {
    if w.pc.Answered? {
      AnswerSettlesExactly(w, h, loose);
    } else {
      OtherCommitIsQuiet(w);
      QuietSettles(w, StepCommit(w), loose);
    }
  }

  // ---------- applying a page ----------

  /** The client learns the effects of waiting entries, and nothing else changes. */
  lemma {:induction false} LearningSettlesExactly(w: World, db: Db, applied: seq<Entry>, loose: bool)
    requires Functional(w.db.outbox) && Settled(w, loose) && db.outbox == w.db.outbox
    requires forall x :: x in applied ==> x in Waiting(w.db.outbox) && Lookup(db.known, x.item) == Effect(x)
    requires forall item :: (forall x :: x in applied ==> x.item != item) ==>
               Lookup(db.known, item) == Lookup(w.db.known, item)
    ensures Settled(w.(db := db), loose) <==> forall x :: x in applied ==> InStep(w, x, loose)
  {
    var occurrences, excuses := w.server.occurrences, Excuses(w.db.outbox, loose);
    forall x | x in applied ensures SettledAt(db.known, occurrences, excuses, x.item) <==> InStep(w, x, loose) {
      LearnedSettles(w, db, x, loose);
    }
    forall item | forall x :: x in applied ==> x.item != item ensures SettledAt(db.known, occurrences, excuses, item) {
      assert SettledAt(w.db.known, occurrences, excuses, item);
    }
  }

  lemma LearnedSettles(w: World, db: Db, x: Entry, loose: bool)
    requires Functional(w.db.outbox) && x in Waiting(w.db.outbox) && Lookup(db.known, x.item) == Effect(x)
    ensures SettledAt(db.known, w.server.occurrences, Excuses(w.db.outbox, loose), x.item) <==> InStep(w, x, loose)
  {
  }

  /** The deliveries are for these entries, in order. */
  ghost predicate Carry(ds: seq<Delivery>, applied: seq<Entry>) {
    |ds| == |applied| && forall k :: 0 <= k < |ds| ==> ds[k].0 == applied[k]
  }

  lemma {:induction false} CarryMembers(ds: seq<Delivery>, applied: seq<Entry>)
    requires Carry(ds, applied)
    ensures forall d :: d in ds ==> d.0 in applied
    ensures forall x :: x in applied ==> exists d :: d in ds && d.0 == x
  {
    forall d | d in ds ensures d.0 in applied {
      var k :| 0 <= k < |ds| && ds[k] == d;
    }
    forall x | x in applied ensures exists d :: d in ds && d.0 == x {
      var k :| 0 <= k < |applied| && applied[k] == x;
      assert ds[k] in ds;
    }
  }

  /** The client learns exactly the effects of the delivered entries. */
  lemma {:induction false} DeliveredAt(db: Db, ds: seq<Delivery>, applied: seq<Entry>, item: string)
    requires Functional(db.outbox) && Carry(ds, applied)
    requires forall x :: x in applied ==> x in Waiting(db.outbox)
    ensures var known := DeliverAll(db.source, StoreOf(db), ds).known;
            && (forall x :: x in applied && x.item == item ==> Lookup(known, item) == Effect(x))
            && ((forall x :: x in applied ==> x.item != item) ==> Lookup(known, item) == Lookup(db.known, item))
  {
    CarryMembers(ds, applied);
    DeliverEffects(db.source, StoreOf(db), ds, item);
  }

  lemma {:induction false} DeliverySettlesExactly(w: World, ds: seq<Delivery>, applied: seq<Entry>, after: Db,
                                                  loose: bool)
    requires Functional(w.db.outbox) && Settled(w, loose) && Carry(ds, applied)
    requires forall x :: x in applied ==> x in Waiting(w.db.outbox)
    requires after.known == DeliverAll(w.db.source, StoreOf(w.db), ds).known && after.outbox == w.db.outbox
    ensures Settled(w.(db := after), loose) <==> forall x :: x in applied ==> InStep(w, x, loose)
  {
    forall x | x in applied ensures Lookup(after.known, x.item) == Effect(x) {
      DeliveredAt(w.db, ds, applied, x.item);
    }
    forall item | forall x :: x in applied ==> x.item != item
      ensures Lookup(after.known, item) == Lookup(w.db.known, item)
    {
      DeliveredAt(w.db, ds, applied, item);
    }
    LearningSettlesExactly(w, after, applied, loose);
  }

  lemma {:induction false} PageCarries(ds: seq<Delivery>, rows: seq<Entry>, cursor: nat, end: nat)
    requires FromRows(ds, rows, cursor) && end == cursor + |ds|
    ensures Carry(ds, rows[cursor..end]) && forall x :: x in rows[cursor..end] ==> x in rows
  {
  }

  /** An accepted page leads to `after` by applying its rows, a refused one falls back. */
  ghost predicate PageEnds(w: World, item: BulkItem, page: seq<Row>, after: World, applied: seq<Entry>) {
    var r := ApplyRows(w.db, item.id, page);
    if r.Success? then after == w.(db := r.value.0) && Carry(Deliveries(page), applied)
    else after == FallBack(w, item.id, FailedPermanent) && applied == []
  }

  /** A request to apply a page leads to `after` by applying the rows `applied`. */
  ghost predicate PageStep(w: World, item: BulkItem, size: nat, results: seq<EntryResult>, after: World,
                           applied: seq<Entry>)
  {
    var rows := RowsOf(w.db.outbox, item.captured);
    && (forall x :: x in applied ==> x in rows)
    && if Offered(item, rows, size, results)
       then PageEnds(w, item, NextPage(rows, results, item.appliedThrough, size), after, applied)
       else after == w && applied == []
  }

  lemma {:induction false} PageSteps(w: World, h: nat, size: nat, results: seq<EntryResult>)
    requires w.pc.ApplyingPages? && FindBulk(w.db.bulks, w.pc.bulk) == Some(h)
    ensures PageStep(w, w.db.bulks[h], size, results, StepApplyPage(w, size, results), AppliedRows(w, size, results))
  {
    var item := w.db.bulks[h];
    var rows := RowsOf(w.db.outbox, item.captured);
    if Offered(item, rows, size, results) {
      NextPageDeliveries(rows, results, item.appliedThrough, size);
      PageCarries(Deliveries(NextPage(rows, results, item.appliedThrough, size)), rows, item.appliedThrough,
                  item.appliedThrough + size);
    }
  }

  lemma {:induction false} PageStepSettles(w: World, h: nat, size: nat, results: seq<EntryResult>, after: World,
                                           applied: seq<Entry>, loose: bool)
    requires ClientAt(w, h) && Settled(w, loose) && h < |w.db.bulks|
    requires FindBulk(w.db.bulks, w.db.bulks[h].id) == Some(h)
    requires PageStep(w, w.db.bulks[h], size, results, after, applied)
    ensures Settled(after, loose) <==> forall x :: x in applied ==> InStep(w, x, loose)
  {
    var item := w.db.bulks[h];
    var rows := RowsOf(w.db.outbox, item.captured);
    if Offered(item, rows, size, results) {
      PageEndSettles(w, h, NextPage(rows, results, item.appliedThrough, size), after, applied, loose);
    }
  }

  lemma {:induction false} PageSettlesExactly(w: World, h: int, size: nat, results: seq<EntryResult>, loose: bool)
    requires ClientAt(w, h) && Settled(w, loose)
    ensures Settled(StepApplyPage(w, size, results), loose)
       <==> forall x :: x in AppliedRows(w, size, results) ==> InStep(w, x, loose)
  {
    if w.pc.ApplyingPages? {
      HeldItem(w, h, w.pc.bulk);
      PageSteps(w, h, size, results);
      PageStepSettles(w, h, size, results, StepApplyPage(w, size, results), AppliedRows(w, size, results), loose);
    }
  }

  /** The page is applied. */
  lemma {:induction false} AppliedPageSettles(w: World, h: int, page: seq<Row>, applied: seq<Entry>, loose: bool)
    requires ClientAt(w, h) && Settled(w, loose) && h >= 0
    requires FindBulk(w.db.bulks, w.db.bulks[h].id) == Some(h)
    requires ApplyRows(w.db, w.db.bulks[h].id, page).Success? && Carry(Deliveries(page), applied)
    requires forall x :: x in applied ==> x in RowsOf(w.db.outbox, w.db.bulks[h].captured)
    ensures Settled(w.(db := ApplyRows(w.db, w.db.bulks[h].id, page).value.0), loose)
       <==> forall x :: x in applied ==> InStep(w, x, loose)
  {
    BulkRefinement.AcceptedPageParts(w.db, w.db.bulks[h].id, h, page);
    RowsAreFunctional(w.db, h);
    DeliverySettlesExactly(w, Deliveries(page), applied, ApplyRows(w.db, w.db.bulks[h].id, page).value.0, loose);
  }

  lemma {:induction false} PageEndSettles(w: World, h: int, page: seq<Row>, after: World, applied: seq<Entry>,
                                          loose: bool)
    requires ClientAt(w, h) && Settled(w, loose) && 0 <= h < |w.db.bulks|
    requires FindBulk(w.db.bulks, w.db.bulks[h].id) == Some(h)
    requires PageEnds(w, w.db.bulks[h], page, after, applied)
    requires forall x :: x in applied ==> x in RowsOf(w.db.outbox, w.db.bulks[h].captured)
    ensures Settled(after, loose) <==> forall x :: x in applied ==> InStep(w, x, loose)
  {
    if ApplyRows(w.db, w.db.bulks[h].id, page).Success? {
      AppliedPageSettles(w, h, page, applied, loose);
    } else {
      QuietFallBack(w, w.db.bulks[h].id, FailedPermanent);
      QuietSettles(w, FallBack(w, w.db.bulks[h].id, FailedPermanent), loose);
    }
  }

  lemma QuietFallBack(w: World, bulk: nat, state: ImportStatus)
    ensures var after := FallBack(w, bulk, state);
            after.db.outbox == w.db.outbox && after.db.known == w.db.known && after.server == w.server
  {
  }

  // ---------- finishing ----------

  /** Finishing releases rows that the client knows, so an excuse that is lost was not
      needed. */
  lemma CompletedSettles(w: World, h: int, loose: bool)
    requires ClientAt(w, h) && Settled(w, loose) && w.pc.ApplyingPages? && FindBulk(w.db.bulks, w.pc.bulk) == Some(h)
    requires CompleteBulk(w.db, w.pc.bulk).Success?
    ensures Settled(StepFinish(w), loose)
  {
    var captured := w.db.bulks[h].captured;
    CompletedParts(w, h);
    AllRowsKnown(w.db, h);
    DiscardSettles(w, captured, StepFinish(w), loose);
  }

  lemma DiscardKeepsNoted(outbox: seq<Batch>, ids: set<nat>)
    ensures Noted(outbox) <= Noted(DiscardPending(outbox, ids))
  {
    var after := DiscardPending(outbox, ids);
    forall b | b in outbox && b.state == Failed ensures b in after {
      var i :| 0 <= i < |outbox| && outbox[i] == b;
      assert after[i] == b;
    }
  }

  lemma DiscardedIsKnown(db: Db, captured: seq<nat>, e: Entry)
    requires UniqueRows(db.outbox, db.nextId) && InEffect(db.known, RowsOf(db.outbox, captured))
    requires e in Waiting(db.outbox) && e !in Waiting(DiscardPending(db.outbox, SetOf(captured)))
    ensures Lookup(db.known, e.item) == Effect(e)
  {
    DiscardAccounts(db.outbox, SetOf(captured), e);
    var b :| b in db.outbox && b.id in SetOf(captured) && e in b.entries;
    CapturedRow(db.outbox, db.nextId, captured, b, e);
  }

  lemma DiscardSettles(w: World, captured: seq<nat>, after: World, loose: bool)
    requires UniqueRows(w.db.outbox, w.db.nextId) && Settled(w, loose)
    requires InEffect(w.db.known, RowsOf(w.db.outbox, captured))
    requires after.db.outbox == DiscardPending(w.db.outbox, SetOf(captured))
    requires after.db.known == w.db.known && after.server.occurrences == w.server.occurrences
    ensures Settled(after, loose)
  {
    DiscardKeepsNoted(w.db.outbox, SetOf(captured));
    forall e | e in Waiting(w.db.outbox) && e !in Waiting(after.db.outbox)
      ensures Lookup(w.db.known, e.item) == Effect(e)
    {
      DiscardedIsKnown(w.db, captured, e);
    }
    forall item ensures SettledAt(after.db.known, after.server.occurrences, Excuses(after.db.outbox, loose), item) {
      assert SettledAt(w.db.known, w.server.occurrences, Excuses(w.db.outbox, loose), item);
    }
  }

  lemma FinishSettles(w: World, h: int, loose: bool)
    requires ClientAt(w, h) && Settled(w, loose)
    ensures Settled(StepFinish(w), loose)
  {
    if w.pc.ApplyingPages? {
      HeldItem(w, h, w.pc.bulk);
      if CompleteBulk(w.db, w.pc.bulk).Success? {
        CompletedSettles(w, h, loose);
      } else {
        QuietFallBack(w, w.pc.bulk, FailedPermanent);
        QuietSettles(w, StepFinish(w), loose);
      }
    }
  }

  // ---------- a merge on the server ----------

  /** A row that the merge does not reject is what the server holds afterwards. */
  lemma {:induction false} MergedAt(occurrences: Inventory, rows: seq<Entry>, refused: set<string>, k: nat)
    requires k < |rows| && !MergeRejects(rows, k, refused)
    ensures Lookup(Merge(occurrences, rows, refused), rows[k].item) == Some(OccurrenceOf(rows[k]))
  {
    var n := |rows| - 1;
    if k < n {
      assert rows[..n][..k] == rows[..k];
      MergedAt(occurrences, rows[..n], refused, k);
      if rows[n].item == rows[k].item {
        assert rows[..n][k] in rows[..n];
        assert MergeRejects(rows, n, refused);
      }
    }
  }

  lemma {:induction false} MergedElsewhere(occurrences: Inventory, rows: seq<Entry>, refused: set<string>,
                                           item: string)
    requires forall k :: 0 <= k < |rows| && rows[k].item == item ==> MergeRejects(rows, k, refused)
    ensures Lookup(Merge(occurrences, rows, refused), item) == Lookup(occurrences, item)
  {
    if rows != [] {
      var n := |rows| - 1;
      forall k | 0 <= k < n && rows[..n][k].item == item ensures MergeRejects(rows[..n], k, refused) {
        assert rows[..n][..k] == rows[..k];
        assert MergeRejects(rows, k, refused);
      }
      MergedElsewhere(occurrences, rows[..n], refused, item);
    }
  }

  lemma MergedRowSettles(w: World, merged: Inventory, row: Entry, loose: bool)
    requires Lookup(merged, row.item) == Some(OccurrenceOf(row))
    ensures SettledAt(w.db.known, merged, Excuses(w.db.outbox, loose), row.item) <==> MayAppear(w, row, loose)
  {
  }

  lemma {:induction false} MergedSettlesAt(w: World, rows: seq<Entry>, refused: set<string>, item: string, loose: bool)
    requires Settled(w, loose) && MergeGuard(w, rows, refused, loose)
    ensures SettledAt(w.db.known, Merge(w.server.occurrences, rows, refused), Excuses(w.db.outbox, loose), item)
  {
    var merged := Merge(w.server.occurrences, rows, refused);
    if k :| 0 <= k < |rows| && rows[k].item == item && !MergeRejects(rows, k, refused) {
      MergedAt(w.server.occurrences, rows, refused, k);
      MergedRowSettles(w, merged, rows[k], loose);
    } else {
      MergedElsewhere(w.server.occurrences, rows, refused, item);
      assert SettledAt(w.db.known, w.server.occurrences, Excuses(w.db.outbox, loose), item);
    }
  }

  lemma {:induction false} MergeSettlesExactly(w: World, rows: seq<Entry>, refused: set<string>, s: Server, loose: bool)
    requires Settled(w, loose) && s.occurrences == Merge(w.server.occurrences, rows, refused)
    ensures Settled(w.(server := s), loose) <==> MergeGuard(w, rows, refused, loose)
  {
    if MergeGuard(w, rows, refused, loose) {
      forall item ensures SettledAt(w.db.known, s.occurrences, Excuses(w.db.outbox, loose), item) {
        MergedSettlesAt(w, rows, refused, item, loose);
      }
    } else {
      var k :| 0 <= k < |rows| && !MergeRejects(rows, k, refused) && !MayAppear(w, rows[k], loose);
      MergedAt(w.server.occurrences, rows, refused, k);
      MergedRowSettles(w, s.occurrences, rows[k], loose);
      assert !SettledAt(w.db.known, s.occurrences, Excuses(w.db.outbox, loose), rows[k].item);
    }
  }

  // ---------- every step ----------

  lemma {:induction false} ServingSettlesExactly(w: World, h: int, e: Event, loose: bool)
    requires ClientAt(w, h) && Settled(w, loose) && (e.SubmitBatch? || e.ServerMerge?)
    ensures Settled(Step(w, e), loose) <==> Guarded(w, e, loose)
  {
    var after := Step(w, e);
    if e.SubmitBatch? {
      assert after == StepSubmit(w, e.lost, e.verdict, e.expired);
      SubmitSettles(w, h, e.lost, e.verdict, e.expired, loose);
    } else {
      assert after == w.(server := StepServer(w.server, ServerMerge(e.i, e.refused)));
      if Merges(w.server, e.i) {
        MergeSettlesExactly(w, w.server.imports[e.i].rows, e.refused, after.server, loose);
      } else {
        assert after == w;
      }
    }
  }

  lemma {:induction false} ApplyingSettlesExactly(w: World, h: int, e: Event, loose: bool)
    requires ClientAt(w, h) && Settled(w, loose) && (e.ApplyPage? || e == FinishResult)
    ensures Settled(Step(w, e), loose) <==> Guarded(w, e, loose)
  {
    var after := Step(w, e);
    if e.ApplyPage? {
      assert after == StepApplyPage(w, e.size, e.results);
      PageSettlesExactly(w, h, e.size, e.results, loose);
    } else {
      assert after == StepFinish(w);
      FinishSettles(w, h, loose);
    }
  }

  /** From a settled state of any run, the guard decides for every event whether the
      next state is settled. */
  lemma StepSettlesExactly(w: World, h: int, e: Event, loose: bool)
    requires ClientAt(w, h) && Apart(w.db.outbox) && Settled(w, loose)
    ensures Settled(Step(w, e), loose) <==> Guarded(w, e, loose)
  {
    if e.SubmitBatch? || e.ServerMerge? {
      ServingSettlesExactly(w, h, e, loose);
    } else if e.ApplyPage? || e == FinishResult {
      ApplyingSettlesExactly(w, h, e, loose);
    } else if e == Commit {
      assert Step(w, e) == StepCommit(w);
      CommitSettlesExactly(w, h, loose);
    } else if e.QueueScan? || e.SplitBatches? {
      QueueingSettles(w, h, e, loose);
    } else {
      OtherSettles(w, e, loose);
    }
  }

  // ---------- every run ----------

  ghost predicate AllGuarded(start: World, events: seq<Event>, loose: bool) {
    forall i :: 0 <= i < |events| ==> Guarded(Run(start, events[..i]), events[i], loose)
  }

  ghost predicate AllSettled(start: World, events: seq<Event>, loose: bool) {
    forall n :: 0 <= n <= |events| ==> Settled(Run(start, events[..n]), loose)
  }

  lemma FreshSettles(start: World, loose: bool)
    requires Fresh(start)
    ensures Settled(start, loose)
  {
  }

  lemma RunStepSettles(start: World, events: seq<Event>, n: nat, loose: bool)
    requires Fresh(start) && n < |events| && Settled(Run(start, events[..n]), loose)
    ensures Settled(Run(start, events[..n + 1]), loose) <==> Guarded(Run(start, events[..n]), events[n], loose)
  {
    var h := RunIsApart(start, events[..n]);
    RunNext(start, events, n);
    StepSettlesExactly(Run(start, events[..n]), h, events[n], loose);
  }

  lemma {:induction false} GuardedRunSettles(start: World, events: seq<Event>, n: nat, loose: bool)
    requires Fresh(start) && AllGuarded(start, events, loose) && n <= |events|
    ensures Settled(Run(start, events[..n]), loose)
  {
    if n == 0 {
      FreshSettles(start, loose);
    } else {
      GuardedRunSettles(start, events, n - 1, loose);
      assert Guarded(Run(start, events[..n - 1]), events[n - 1], loose);
      RunStepSettles(start, events, n - 1, loose);
    }
  }

  /** The exact condition, for every run with every transport, through crashes, lost
      answers, expired replies, rejected requests and imports given up: the
      inventories differ only where an entry still waits (or, read loosely, where one
      is noted as refused), in all states of the run, if and only if each answer that
      is stored accepts only what is in effect on the server and refuses nothing that
      is hidden, each page that is applied has only rows in effect there, and each
      merge writes only what the client knows or still has waiting. */
  lemma AgreementIsExact(start: World, events: seq<Event>, loose: bool)
    requires Fresh(start)
    ensures AllSettled(start, events, loose) <==> AllGuarded(start, events, loose)
  {
    if AllGuarded(start, events, loose) {
      forall n | 0 <= n <= |events| ensures Settled(Run(start, events[..n]), loose) {
        GuardedRunSettles(start, events, n, loose);
      }
    } else {
      var i :| 0 <= i < |events| && !Guarded(Run(start, events[..i]), events[i], loose);
      UnguardedRunUnsettles(start, events, i, loose);
    }
  }

  lemma UnguardedRunUnsettles(start: World, events: seq<Event>, i: nat, loose: bool)
    requires Fresh(start) && i < |events| && !Guarded(Run(start, events[..i]), events[i], loose)
    ensures !Settled(Run(start, events[..i]), loose) || !Settled(Run(start, events[..i + 1]), loose)
  {
    if Settled(Run(start, events[..i]), loose) { RunStepSettles(start, events, i, loose); }
  }

  /** Once nothing is pending, the client's record of the server equals the server's
      inventory, for every transport and every crash point. */
  lemma DrainedInventoriesAreEqual(start: World, events: seq<Event>)
    requires Fresh(start) && AllGuarded(start, events, false)
    requires PendingOf(Run(start, events).db.outbox) == []
    ensures Run(start, events).db.known == Run(start, events).server.occurrences
  {
    var w := Run(start, events);
    assert events[..|events|] == events;
    GuardedRunSettles(start, events, |events|, false);
    WaitingIsPending(w.db.outbox);
    forall item ensures Lookup(w.db.known, item) == Lookup(w.server.occurrences, item) {
      assert SettledAt(w.db.known, w.server.occurrences, Excuses(w.db.outbox, false), item);
    }
    EqualLookups(w.db.known, w.server.occurrences);
  }

  // ---------- runs that give up no running import ----------

  /** The answer about to be stored refuses nothing that is hidden. */
  ghost predicate RefusesNothingHidden(w: World, e: Event) {
    e == Commit && w.pc.Answered? ==> forall x :: x in RefusedBy(w.pc.batch, w.pc.response) ==> !Hidden(w, x)
  }

  lemma HonestAnswer(w: World, h: int)
    requires PointServer(w, h) && w.pc.Answered? && w.pc.response.Some?
    ensures Honest(w.server.occurrences, w.pc.batch, w.pc.response.value)
  {
  }

  /** What an answer accepts is in effect. */
  lemma AcceptedInStep(w: World, h: int, x: Entry, loose: bool)
    requires InvAt(w, h) && w.pc.Answered? && x in w.pc.batch.entries && x !in RefusedBy(w.pc.batch, w.pc.response)
    ensures InStep(w, x, loose)
  {
    var b, r := w.pc.batch, w.pc.response.value;
    AcceptedOrRefused(b.entries, b.reliable, r.results);
    HonestAnswer(w, h);
  }

  lemma AnswersAreGuarded(w: World, h: int, loose: bool)
    requires InvAt(w, h)
    ensures Guarded(w, Commit, loose) <==> loose || RefusesNothingHidden(w, Commit)
  {
    if w.pc.Answered? {
      RefusedAreEntries(w.pc.batch, w.pc.response);
      forall x | x in w.pc.batch.entries && x !in RefusedBy(w.pc.batch, w.pc.response) ensures InStep(w, x, loose) {
        AcceptedInStep(w, h, x, loose);
      }
    }
  }

  /** The rows of a page are in effect, as their import has succeeded. */
  lemma PagesAreGuarded(w: World, h: int, size: nat, results: seq<EntryResult>, loose: bool)
    requires InvAt(w, h)
    ensures forall x :: x in AppliedRows(w, size, results) ==> InStep(w, x, loose)
  {
    if w.pc.ApplyingPages? {
      HeldItem(w, h, w.pc.bulk);
      SucceededInEffect(w, h);
      var rows := RowsOf(w.db.outbox, w.db.bulks[h].captured);
      forall x | x in AppliedRows(w, size, results) ensures InStep(w, x, loose) {
        assert x in rows;
      }
    }
  }

  /** What a merge writes are rows that still wait. */
  lemma MergesAreGuarded(w: World, h: int, i: nat, refused: set<string>, loose: bool)
    requires InvAt(w, h) && Merges(w.server, i)
    ensures MergeGuard(w, w.server.imports[i].rows, refused, loose)
  {
    RunningRowsWait(w, h, i);
  }

  /** While no running import is given up, only an answer can break the guard, by
      refusing what is hidden; read loosely, nothing can. */
  lemma KeptStepsAreGuarded(w: World, h: int, e: Event, loose: bool)
    requires InvAt(w, h)
    ensures Guarded(w, e, loose) <==> loose || RefusesNothingHidden(w, e)
  {
    if e == Commit {
      AnswersAreGuarded(w, h, loose);
    } else if e.ApplyPage? {
      PagesAreGuarded(w, h, e.size, e.results, loose);
    } else if e.ServerMerge? {
      if Merges(w.server, e.i) { MergesAreGuarded(w, h, e.i, e.refused, loose); }
    }
  }

  lemma KeptRunStep(start: World, events: seq<Event>, i: nat, loose: bool)
    requires Fresh(start) && KeepsImports(start, events) && i < |events|
    ensures Guarded(Run(start, events[..i]), events[i], loose)
       <==> loose || RefusesNothingHidden(Run(start, events[..i]), events[i])
  {
    ShorterKeepsImports(start, events, i);
    var h := RunKeeps(start, events[..i]);
    KeptStepsAreGuarded(Run(start, events[..i]), h, events[i], loose);
  }

  /** In such a run, the inventories agree up to what still waits, in all states, if
      and only if no stored answer refuses an entry whose effect the server holds and
      the client does not know. */
  lemma KeptRunsAgreeExactly(start: World, events: seq<Event>)
    requires Fresh(start) && KeepsImports(start, events)
    ensures AllSettled(start, events, false)
       <==> forall i :: 0 <= i < |events| ==> RefusesNothingHidden(Run(start, events[..i]), events[i])
  {
    AgreementIsExact(start, events, false);
    forall i | 0 <= i < |events|
      ensures Guarded(Run(start, events[..i]), events[i], false)
         <==> RefusesNothingHidden(Run(start, events[..i]), events[i])
    {
      KeptRunStep(start, events, i, false);
    }
  }

  /** In every run that gives up no running import, through crashes, lost responses,
      resends, splits, bulk imports and fallbacks, the client's and the server's value
      of an item differ only where the server holds the effect of an entry that is
      still waiting for delivery, or is noted as refused. */
  lemma InventoriesAgree(start: World, events: seq<Event>, item: string)
    requires Fresh(start) && KeepsImports(start, events)
    ensures var w := Run(start, events);
            || Lookup(w.db.known, item) == Lookup(w.server.occurrences, item)
            || exists e :: e in Waiting(w.db.outbox) + Noted(w.db.outbox) && e.item == item
                           && Lookup(w.server.occurrences, item) == Effect(e)
  {
    var w := Run(start, events);
    assert events[..|events|] == events;
    forall i | 0 <= i < |events| ensures Guarded(Run(start, events[..i]), events[i], true) {
      KeptRunStep(start, events, i, true);
    }
    GuardedRunSettles(start, events, |events|, true);
    assert SettledAt(w.db.known, w.server.occurrences, Excuses(w.db.outbox, true), item);
  }

  // ---------- an answer that refuses what is hidden ----------

  /** Storing such an answer leaves the item different with nothing waiting for it. */
  lemma HiddenRefusalStays(w: World, h: int, x: Entry)
    requires ClientAt(w, h) && Apart(w.db.outbox) && w.pc.Answered?
    requires x in RefusedBy(w.pc.batch, w.pc.response) && Hidden(w, x)
    ensures var after := Step(w, Commit);
            && Lookup(after.db.known, x.item) != Lookup(after.server.occurrences, x.item)
            && forall e :: e in Waiting(after.db.outbox) ==> e.item != x.item
  {
    var b, response := w.pc.batch, w.pc.response;
    assert h == -1 && Step(w, Commit) == StepCommit(w);
    StoredParts(w, b, response);
    RefusedAreEntries(b, response);
    LearnedAt(w, b, response, x);
    NothingWaitsFor(w, b, response, x);
  }

  // ---------- runs with batches only ----------

  lemma BatchEntryGuarded(w: World, x: Entry)
    requires SyncExact.BatchInv(w) && w.pc.Answered? && x in w.pc.batch.entries
    ensures if x in RefusedBy(w.pc.batch, w.pc.response) then !Hidden(w, x) else InStep(w, x, false)
  {
    var b, response := w.pc.batch, w.pc.response;
    if response.Some? { AcceptedOrRefused(b.entries, b.reliable, response.value.results); }
    assert SyncExact.EntryExact(w.db.known, w.server, b, x);
  }

  lemma BatchStateIsGuarded(w: World, e: Event)
    requires SyncExact.BatchInv(w)
    ensures Guarded(w, e, false)
  {
    if e == Commit && w.pc.Answered? {
      forall x | x in w.pc.batch.entries
        ensures if x in RefusedBy(w.pc.batch, w.pc.response) then !Hidden(w, x) else InStep(w, x, false)
      {
        BatchEntryGuarded(w, x);
      }
    }
  }

  lemma BatchRunPrefix(start: World, events: seq<Event>, n: nat)
    requires SyncExact.BatchRun(start, events) && n <= |events|
    ensures SyncExact.BatchRun(start, events[..n])
  {
    forall i | 0 <= i < n ensures SyncExact.BatchStep(Run(start, events[..n][..i]), events[..n][i]) {
      assert events[..n][..i] == events[..i];
    }
  }

  /** When only batches are sent and stored replies are kept, every event meets the
      guard and no import is given up, so such runs are an instance. */
  lemma BatchRunsAreGuarded(start: World, events: seq<Event>)
    requires Fresh(start) && SyncExact.BatchRun(start, events)
    ensures AllGuarded(start, events, false) && KeepsImports(start, events)
  {
    forall i | 0 <= i < |events|
      ensures Guarded(Run(start, events[..i]), events[i], false) && !GivesUpLive(Run(start, events[..i]), events[i])
    {
      BatchRunPrefix(start, events, i);
      SyncExact.BatchRunKeeps(start, events[..i]);
      BatchStateIsGuarded(Run(start, events[..i]), events[i]);
      NoImportsNoneGivenUp(Run(start, events[..i]), events[i]);
    }
  }

  lemma NoImportsNoneGivenUp(w: World, e: Event)
    requires w.server.imports == [] && w.db.bulks == []
    ensures !GivesUpLive(w, e)
  {
  }
}
