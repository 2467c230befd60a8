/** What a sync is for: from every reachable state, whatever has happened, the engine can
    drain what waits and then bring client and server in step with any scan. */
module SyncConvergence {
  import opened Options
  import opened Manifest
  import opened Outbox
  import opened Planning
  import opened SyncProtocol
  import opened SyncInvariant
  import opened SyncSteps
  import opened SyncTables
  import opened SyncClient
  import opened SyncTheorems
  import opened SyncProgress
  import opened Answers
  import BulkRefinement
  import Splitting
  import SyncAgreement
  import SyncExact

  // ---------- no item is named "" ----------

  lemma {:induction false} DeliveriesAreNamed(source: nat, s: Store, ds: seq<Delivery>)
    requires "" !in s.known && forall d :: d in ds ==> d.0.item != ""
    ensures "" !in DeliverAll(source, s, ds).known
  {
    if ds != [] {
      var front, last := ds[..|ds| - 1], ds[|ds| - 1];
      assert ds == front + [last];
      DeliveriesAreNamed(source, s, front);
    }
  }

  lemma AcceptedAreNamed(entries: seq<Entry>, reliable: bool, results: seq<EntryResult>)
    ensures forall d :: d in Accepted(entries, reliable, results) ==> d.0.item != ""
  {
    AcceptedOrRefused(entries, reliable, results);
    NoResultForNoItem(results);
  }

  lemma {:induction false} RowsAreNamed(rows: seq<Row>, current: nat, entryCount: nat)
    requires FirstError(rows, current, entryCount).None?
    ensures forall d :: d in Deliveries(rows) ==> d.0.item != ""
  {
    if rows != [] { RowsAreNamed(rows[..|rows| - 1], current, entryCount); }
  }

  lemma PageKeepsNamed(db: Db, id: nat, rows: seq<Row>)
    requires "" !in db.known && ApplyRows(db, id, rows).Success?
    ensures "" !in ApplyRows(db, id, rows).value.0.known
  {
    var item := db.bulks[FindBulk(db.bulks, id).value];
    RowsAreNamed(rows, item.appliedThrough, item.artifact.entryCount);
    DeliveriesAreNamed(db.source, StoreOf(db), Deliveries(rows));
  }

  lemma PageStepKeepsNamed(w: World, size: nat, results: seq<EntryResult>)
    requires "" !in w.db.known
    ensures "" !in StepApplyPage(w, size, results).db.known
  {
    var after := StepApplyPage(w, size, results);
    if after.db.known != w.db.known {
      var item := w.db.bulks[FindBulk(w.db.bulks, w.pc.bulk).value];
      PageKeepsNamed(w.db, item.id, NextPage(RowsOf(w.db.outbox, item.captured), results, item.appliedThrough, size));
    }
  }

  lemma CommitKeepsNamed(w: World)
    requires "" !in w.db.known
    ensures "" !in StepCommit(w).db.known
  {
    if w.pc.Answered? {
      if w.pc.response.Some? {
        var b, r := w.pc.batch, w.pc.response.value;
        AcceptedAreNamed(b.entries, b.reliable, r.results);
        DeliveriesAreNamed(w.db.source, StoreOf(w.db), Accepted(b.entries, b.reliable, r.results));
      }
    } else {
      SyncAgreement.OtherCommitIsQuiet(w);
    }
  }

  lemma FinishKeepsKnown(w: World)
    ensures StepFinish(w).db.known == w.db.known
  {
  }

  lemma StepKeepsNamed(w: World, e: Event)
    requires "" !in w.db.known
    ensures "" !in Step(w, e).db.known
  {
    match e
    case Commit => CommitKeepsNamed(w);
    case ApplyPage(size, results) => PageStepKeepsNamed(w, size, results);
    case FinishResult => FinishKeepsKnown(w);
    case SubmitBatch(_, _, _) =>
    case ServerMerge(_, _) =>
    case StatusUnusable => SyncAgreement.BulkRequestsAreQuiet(w, e);
    case CreateRequest(_, _) => SyncAgreement.BulkRequestsAreQuiet(w, e);
    case RequestRejected => SyncAgreement.BulkRequestsAreQuiet(w, e);
    case CompleteRequest(_) => SyncAgreement.BulkRequestsAreQuiet(w, e);
    case CompleteUnusable => SyncAgreement.BulkRequestsAreQuiet(w, e);
    case Decide(_) => SyncAgreement.BulkAnswersAreQuiet(w, e);
    case OpenResult(_) => SyncAgreement.BulkAnswersAreQuiet(w, e);
    case NotAwaitingUpload => SyncAgreement.BulkAnswersAreQuiet(w, e);
    case ReadStatus => SyncAgreement.BulkAnswersAreQuiet(w, e);
    case ServerStart(_) => SyncAgreement.StatusesAreQuiet(w, e);
    case ServerRetry(_) => SyncAgreement.StatusesAreQuiet(w, e);
    case ServerFinish(_) => SyncAgreement.StatusesAreQuiet(w, e);
    case ServerAbort(_, _) => SyncAgreement.StatusesAreQuiet(w, e);
    case _ => SyncAgreement.QueueingIsQuiet(w, e);
  }

  lemma {:induction false} RunIsNamed(start: World, events: seq<Event>)
    requires Fresh(start)
    ensures "" !in Run(start, events).db.known
  {
    if events != [] {
      RunIsNamed(start, events[..|events| - 1]);
      StepKeepsNamed(Run(start, events[..|events| - 1]), events[|events| - 1]);
    }
  }

  // ---------- an answer that takes everything ----------

  /** The server has a reason to take the entry. */
  predicate Takable(e: Entry, reliable: bool) {
    e.item != "" && (e.operation == Upsert || (e.operation == Deleted && reliable))
  }

  lemma {:induction false} NoneIsRejected(occurrences: Inventory, entries: seq<Entry>, reliable: bool, k: nat)
    requires DistinctItems(entries) && k < |entries| && entries[k].operation != OtherOperation
    ensures var results := Process(occurrences, entries, reliable, ACCEPTING).1;
            |results| == |entries| && results[k].outcome != Rejected
  {
    var n := |entries| - 1;
    ResultsCount(occurrences, entries, reliable, ACCEPTING);
    ResultsCount(occurrences, entries[..n], reliable, ACCEPTING);
    if k < n { NoneIsRejected(occurrences, entries[..n], reliable, k); } else { NotRepeated(entries); }
  }

  lemma EntryIsTaken(occurrences: Inventory, entries: seq<Entry>, reliable: bool, k: nat)
    requires DistinctItems(entries) && k < |entries| && Takable(entries[k], reliable)
    ensures var done := Process(occurrences, entries, reliable, ACCEPTING);
            Taken(entries[k], reliable, done.1) && Lookup(done.0, entries[k].item) == Effect(entries[k])
  {
    OwnResult(occurrences, entries, reliable, ACCEPTING, k);
    EachIsServed(occurrences, entries, reliable, ACCEPTING, k);
    NoneIsRejected(occurrences, entries, reliable, k);
  }

  function Reply(occurrences: Inventory, b: Batch): Response {
    var results := Process(occurrences, b.entries, b.reliable, ACCEPTING).1;
    Response(results, RejectedCount(results))
  }

  /** A batch of such entries is answered with nothing refused, and put in effect. */
  lemma BatchIsTaken(occurrences: Inventory, b: Batch)
    requires DistinctItems(b.entries) && forall e :: e in b.entries ==> Takable(e, b.reliable)
    ensures Clean(b, Reply(occurrences, b))
    ensures InEffect(Process(occurrences, b.entries, b.reliable, ACCEPTING).0, b.entries)
  {
    var done := Process(occurrences, b.entries, b.reliable, ACCEPTING);
    ResultsCount(occurrences, b.entries, b.reliable, ACCEPTING);
    forall k | 0 <= k < |b.entries|
      ensures done.1[k].outcome != Rejected
      ensures Taken(b.entries[k], b.reliable, done.1) && Lookup(done.0, b.entries[k].item) == Effect(b.entries[k])
    {
      assert b.entries[k] in b.entries;
      NoneIsRejected(occurrences, b.entries, b.reliable, k);
      EntryIsTaken(occurrences, b.entries, b.reliable, k);
    }
    NoneRejected(done.1);
    forall e | e in b.entries
      ensures Taken(e, b.reliable, done.1) && Lookup(done.0, e.item) == Effect(e)
    {
      var k :| 0 <= k < |b.entries| && b.entries[k] == e;
    }
    NothingRefused(b, done.1);
  }

  lemma NothingRefused(b: Batch, results: seq<EntryResult>)
    requires forall e :: e in b.entries ==> Taken(e, b.reliable, results)
    ensures Refused(b.entries, b.reliable, results) == []
  {
    var refused := Refused(b.entries, b.reliable, results);
    AcceptedOrRefused(b.entries, b.reliable, results);
    if refused != [] {
      assert refused[0] in refused;
      TakenIsAccepted(refused[0], b.reliable, results);
    }
  }

  // ---------- sending batches that are all taken ----------

  ghost predicate AllTakable(batches: seq<Batch>) {
    && DistinctItems(EntriesOf(batches))
    && forall b, e :: b in batches && e in b.entries ==> Takable(e, b.reliable)
  }

  function TakeRounds(n: nat): seq<Event> {
    if n == 0 then [] else TakeRounds(n - 1) + Round(ACCEPTING, true)
  }

  lemma AnswersFirst(w: World, b: Batch)
    requires w.pc == Sending && PendingOf(w.db.outbox) != [] && PendingOf(w.db.outbox)[0] == b
    ensures var sent := Step(w, SubmitBatch(false, ACCEPTING, true));
            && sent.db == w.db && sent.pc == Answered(b, Some(Reply(w.server.occurrences, b)))
            && sent.server.occurrences == Process(w.server.occurrences, b.entries, b.reliable, ACCEPTING).0
  {
    assert Step(w, SubmitBatch(false, ACCEPTING, true)) == StepSubmit(w, false, ACCEPTING, true);
  }

  lemma StoresAnswer(w: World, b: Batch, response: Response)
    requires ClientAt(w, -1) && w.pc == Answered(b, Some(response))
    ensures Step(w, Commit) == World(Acknowledge(w.db, b, response), w.server, Sending)
  {
    StoredParts(w, b, Some(response));
  }

  /** One round, with the answer stored. */
  lemma RoundStores(w: World, pending: seq<Batch>)
    requires Sends(w, pending) && pending != []
    ensures var after := Run(w, Round(ACCEPTING, true));
            && after.db == Acknowledge(w.db, pending[0], Reply(w.server.occurrences, pending[0]))
            && after.server.occurrences
               == Process(w.server.occurrences, pending[0].entries, pending[0].reliable, ACCEPTING).0
  {
    var submit := SubmitBatch(false, ACCEPTING, true);
    RoundClient(w, ACCEPTING, true);
    AnswersFirst(w, pending[0]);
    StoresAnswer(Step(w, submit), pending[0], Reply(w.server.occurrences, pending[0]));
    RunOne(w, submit);
    RunOneMore(w, [submit], Commit);
    assert Round(ACCEPTING, true) == [submit] + [Commit];
  }

  /** What a server holds after it took the entries: their effects, and the rest as it
      was. */
  ghost predicate Took(before: Inventory, after: Inventory, entries: seq<Entry>) {
    && InEffect(after, entries)
    && forall item :: (forall e :: e in entries ==> e.item != item) ==> Lookup(after, item) == Lookup(before, item)
  }

  lemma TookMore(before: Inventory, mid: Inventory, after: Inventory, front: seq<Entry>, more: seq<Entry>)
    requires Took(before, mid, front) && Took(mid, after, more)
    requires forall e, f :: e in front && f in more ==> e.item != f.item
    ensures Took(before, after, front + more)
  {
  }

  lemma ServerTakes(occurrences: Inventory, b: Batch)
    requires DistinctItems(b.entries) && forall e :: e in b.entries ==> Takable(e, b.reliable)
    ensures Took(occurrences, Process(occurrences, b.entries, b.reliable, ACCEPTING).0, b.entries)
  {
    BatchIsTaken(occurrences, b);
    forall item | forall e :: e in b.entries ==> e.item != item
      ensures Lookup(Process(occurrences, b.entries, b.reliable, ACCEPTING).0, item) == Lookup(occurrences, item)
    {
      ServedElsewhere(occurrences, b.entries, b.reliable, ACCEPTING, item);
    }
  }

  lemma Joined(batches: seq<Batch>, front: seq<Batch>, rest: seq<Batch>)
    requires batches == front + rest
    ensures EntriesOf(batches) == EntriesOf(front) + EntriesOf(rest)
  {
    Splitting.EntriesConcat(front, rest);
  }

  lemma {:induction false} Prefixes<T>(xs: seq<T>, n: nat)
    requires n < |xs|
    ensures xs == xs[..n + 1] + xs[n + 1..] && xs[..n + 1] == xs[..n] + [xs[n]]
  {
  }

  lemma {:induction false} EntriesSplit(batches: seq<Batch>, n: nat)
    requires n < |batches|
    ensures EntriesOf(batches) == EntriesOf(batches[..n + 1]) + EntriesOf(batches[n + 1..])
    ensures EntriesOf(batches[..n + 1]) == EntriesOf(batches[..n]) + batches[n].entries
  {
    Prefixes(batches, n);
    Joined(batches, batches[..n + 1], batches[n + 1..]);
    Splitting.EntriesLast(batches[..n], batches[n]);
  }

  lemma FrontApart(batches: seq<Batch>, n: nat)
    requires n < |batches| && DistinctItems(EntriesOf(batches))
    ensures DistinctItems(batches[n].entries) && DistinctItems(EntriesOf(batches[..n]))
    ensures EntriesOf(batches[..n + 1]) == EntriesOf(batches[..n]) + batches[n].entries
    ensures forall e, f :: e in EntriesOf(batches[..n]) && f in batches[n].entries ==> e.item != f.item
  {
    var front, rest := EntriesOf(batches[..n + 1]), EntriesOf(batches[n + 1..]);
    EntriesSplit(batches, n);
    SyncExact.ConcatDistinct(front, rest);
    SyncExact.ConcatDistinct(EntriesOf(batches[..n]), batches[n].entries);
  }

  lemma AcknowledgeOneMore(db: Db, batches: seq<Batch>, n: nat, responses: seq<Response>, response: Response)
    requires n < |batches| && |responses| == n
    ensures BulkRefinement.AcknowledgeAll(db, batches[..n + 1], responses + [response])
         == Acknowledge(BulkRefinement.AcknowledgeAll(db, batches[..n], responses), batches[n], response)
  {
    assert batches[..n + 1][..n] == batches[..n] && (responses + [response])[..n] == responses;
  }

  /** The first `n` batches are answered, stored and taken. */
  ghost predicate TakenUpTo(w: World, after: World, batches: seq<Batch>, n: nat, responses: seq<Response>) {
    && n <= |batches| && |responses| == n && AllClean(batches[..n], responses)
    && Sends(after, batches[n..])
    && after.db == BulkRefinement.AcknowledgeAll(w.db, batches[..n], responses)
    && Took(w.server.occurrences, after.server.occurrences, EntriesOf(batches[..n]))
  }

  lemma TakenOneMore(w: World, mid: World, batches: seq<Batch>, n: nat, responses: seq<Response>)
    requires AllTakable(batches) && n < |batches| && TakenUpTo(w, mid, batches, n, responses)
    ensures TakenUpTo(w, Run(mid, Round(ACCEPTING, true)), batches, n + 1,
                      responses + [Reply(mid.server.occurrences, batches[n])])
  {
    var b, reply := batches[n], Reply(mid.server.occurrences, batches[n]);
    assert batches[n..][0] == b && batches[n..][1..] == batches[n + 1..];
    FrontApart(batches, n);
    RoundStores(mid, batches[n..]);
    OneRound(mid, batches[n..], ACCEPTING, true);
    BatchIsTaken(mid.server.occurrences, b);
    ServerTakes(mid.server.occurrences, b);
    AcknowledgeOneMore(w.db, batches, n, responses, reply);
    TookMore(w.server.occurrences, mid.server.occurrences, Run(mid, Round(ACCEPTING, true)).server.occurrences,
             EntriesOf(batches[..n]), b.entries);
    CleanOneMore(batches, n, responses, reply);
  }

  lemma CleanOneMore(batches: seq<Batch>, n: nat, responses: seq<Response>, reply: Response)
    requires n < |batches| && |responses| == n && AllClean(batches[..n], responses) && Clean(batches[n], reply)
    ensures AllClean(batches[..n + 1], responses + [reply])
  {
    forall i | 0 <= i < n + 1 ensures Clean(batches[..n + 1][i], (responses + [reply])[i]) {
      if i < n { assert Clean(batches[..n][i], responses[i]); }
    }
  }

  lemma {:induction false} AllAreTaken(w: World, batches: seq<Batch>, n: nat) returns (responses: seq<Response>)
    requires Sends(w, batches) && AllTakable(batches) && n <= |batches|
    ensures TakenUpTo(w, Run(w, TakeRounds(n)), batches, n, responses)
  {
    if n == 0 {
      responses := [];
      assert batches[..0] == [] && batches[0..] == batches && Run(w, []) == w;
    } else {
      var before := AllAreTaken(w, batches, n - 1);
      var mid := Run(w, TakeRounds(n - 1));
      TakenOneMore(w, mid, batches, n - 1, before);
      RunOn(w, TakeRounds(n - 1), Round(ACCEPTING, true));
      responses := before + [Reply(mid.server.occurrences, batches[n - 1])];
    }
  }

  // ---------- a plan and its batches ----------

  lemma SomeDeletions(items: set<string>, known: Inventory) returns (deleted: seq<Entry>)
    requires items <= known.Keys
    ensures DistinctItems(deleted)
    ensures forall d :: d in deleted <==> d.item in items && d == Deletion(d.item, known[d.item].revision)
  {
    if items == {} {
      deleted := [];
    } else {
      var item :| item in items;
      var rest := SomeDeletions(items - {item}, known);
      deleted := rest + [Deletion(item, known[item].revision)];
    }
  }

  /** Every scan has a plan. */
  lemma PlanExists(scan: Scan, known: Inventory, quarantined: map<string, string>)
    returns (changed: seq<Entry>, deleted: seq<Entry>)
    ensures IsPlan(scan, known, quarantined, changed, deleted)
  {
    changed := Changed(scan.entries, known, quarantined);
    var missing := set item | item in known.Keys && NeedsDeletion(item, scan, known, quarantined);
    deleted := SomeDeletions(missing, known);
    forall item | NeedsDeletion(item, scan, known, quarantined)
      ensures Deletion(item, known[item].revision) in deleted
    {
      assert item in missing;
    }
  }

  /** What queueing a plan leaves: one scan's batches, of one to a hundred entries, with
      the entries of the plan in order. */
  ghost predicate PlanIsQueued(w: World, scan: Scan, entries: seq<Entry>, after: World) {
    && after.pc == Delivering && after.server == w.server && after.db.known == w.db.known
    && after.db.outbox == w.db.outbox + PendingOf(after.db.outbox)
    && EntriesOf(PendingOf(after.db.outbox)) == entries
    && forall b :: b in PendingOf(after.db.outbox) ==> b.reliable == scan.completeRead && 1 <= |b.entries| <= 100
  }

  lemma QueuedAsPlanned(w: World, scan: Scan, entries: seq<Entry>)
    requires PendingOf(w.db.outbox) == []
    ensures var queued := QueueBatches(w.db, ChunkPayloads(scan.completeRead, entries, MANIFEST_BATCH_SIZE));
            PlanIsQueued(w, scan, entries, World(queued, w.server, Delivering))
  {
    var payloads := ChunkPayloads(scan.completeRead, entries, MANIFEST_BATCH_SIZE);
    QueuedNeedsNoSplit(w.db, entries, scan.completeRead);
    QueuedIsPending(w.db, entries, scan.completeRead);
    QueuedEntries(w.db, entries, scan.completeRead);
    QueuedRows(w.db, payloads);
    RowSizes(w.db.nextId, w.db.nextId + 1, scan.completeRead, entries);
  }

  lemma RowSizes(scan: nat, firstId: nat, reliable: bool, entries: seq<Entry>)
    ensures forall b :: b in NewBatches(scan, firstId, ChunkPayloads(reliable, entries, MANIFEST_BATCH_SIZE)) ==>
              b.reliable == reliable && 1 <= |b.entries| <= 100
  {
    var cs := Chunks(entries, MANIFEST_BATCH_SIZE);
    forall b | b in NewBatches(scan, firstId, ChunkPayloads(reliable, entries, MANIFEST_BATCH_SIZE))
      ensures b.reliable == reliable && 1 <= |b.entries| <= 100
    {
      var i :| 0 <= i < |cs| && b.entries == cs[i] && b.reliable == reliable;
      assert cs[i] in cs;
    }
  }

  /** In every run, a scan queues exactly the differences it found, and a scan without
      any ends the sync. */
  lemma ScanIsQueuedExactly(start: World, events: seq<Event>, scan: Scan, changed: seq<Entry>, deleted: seq<Entry>)
    requires Fresh(start) && Run(start, events).pc == Scanning && Proper(scan)
    requires var w := Run(start, events); IsPlan(scan, w.db.known, QuarantineOf(w.db.outbox), changed, deleted)
    ensures var w := Run(start, events);
            var after := Step(w, QueueScan(scan, changed, deleted));
            && SendsDifferences(scan, w.db.known, QuarantineOf(w.db.outbox), changed, deleted)
            && if changed + deleted == [] then after == w.(pc := Idle)
               else PlanIsQueued(w, scan, changed + deleted, after)
  {
    var w := Run(start, events);
    ScansStartDrained(start, events);
    PlanSendsDifferences(scan, w.db.known, QuarantineOf(w.db.outbox), changed, deleted);
    QueuedAsPlanned(w, scan, changed + deleted);
  }

  lemma PlanIsTakable(scan: Scan, known: Inventory, quarantined: map<string, string>, changed: seq<Entry>,
                      deleted: seq<Entry>, batches: seq<Batch>)
    requires Proper(scan) && IsPlan(scan, known, quarantined, changed, deleted) && "" !in known
    requires EntriesOf(batches) == changed + deleted && forall b :: b in batches ==> b.reliable == scan.completeRead
    ensures AllTakable(batches)
  {
    PlanIsDistinct(scan, known, quarantined, changed, deleted);
    SyncExact.PlanIsNamed(scan, known, quarantined, changed, deleted);
    EntriesMembers(batches);
    forall b, e | b in batches && e in b.entries ensures Takable(e, b.reliable) {
      assert e in changed + deleted;
      if e in deleted { assert NeedsDeletion(e.item, scan, known, quarantined); }
    }
  }

  // ---------- from a scan to its delivery ----------

  /** The state in which the batches of the plan are about to be sent. */
  function Ready(w: World, scan: Scan, entries: seq<Entry>): World {
    World(ReadyToDeliver(w.db, entries, scan.completeRead), w.server, Sending)
  }

  function Opening(scan: Scan, changed: seq<Entry>, deleted: seq<Entry>, pending: seq<Batch>): seq<Event> {
    [QueueScan(scan, changed, deleted)] + [Choose(BatchOnly, None, pending, FILE)] + [SplitBatches]
  }

  lemma OpensDelivery(w: World, scan: Scan, changed: seq<Entry>, deleted: seq<Entry>, pending: seq<Batch>)
    requires ClientAt(w, -1) && w.pc == Scanning && Proper(scan) && changed + deleted != []
    requires IsPlan(scan, w.db.known, QuarantineOf(w.db.outbox), changed, deleted)
    requires pending == PendingOf(ReadyToDeliver(w.db, changed + deleted, scan.completeRead).outbox) != []
    ensures Run(w, Opening(scan, changed, deleted, pending)) == Ready(w, scan, changed + deleted)
    ensures Sends(Ready(w, scan, changed + deleted), pending)
  {
    var choose := Choose(BatchOnly, None, pending, FILE);
    var delivering := Queued(w, scan, changed + deleted);
    QueuesPlan(w, scan, changed, deleted);
    ChoosesSending(delivering, choose);
    SplitsQueued(w, scan, changed + deleted);
    RunThree(w, QueueScan(scan, changed, deleted), choose, SplitBatches, delivering, delivering.(pc := Flushing));
  }

  function Queued(w: World, scan: Scan, entries: seq<Entry>): World {
    World(QueueBatches(w.db, ChunkPayloads(scan.completeRead, entries, MANIFEST_BATCH_SIZE)), w.server, Delivering)
  }

  lemma QueuesPlan(w: World, scan: Scan, changed: seq<Entry>, deleted: seq<Entry>)
    requires ClientAt(w, -1) && w.pc == Scanning && Proper(scan) && changed + deleted != []
    requires IsPlan(scan, w.db.known, QuarantineOf(w.db.outbox), changed, deleted)
    ensures Step(w, QueueScan(scan, changed, deleted)) == Queued(w, scan, changed + deleted)
    ensures ClientAt(Queued(w, scan, changed + deleted), -1)
    ensures PendingOf(Queued(w, scan, changed + deleted).db.outbox)
         == PendingOf(ReadyToDeliver(w.db, changed + deleted, scan.completeRead).outbox)
  {
    QueuedNeedsNoSplit(w.db, changed + deleted, scan.completeRead);
    QueueClient(w, scan, changed, deleted);
  }

  lemma SplitSteps(w: World)
    requires ClientAt(w, -1) && w.pc == Flushing
    ensures var after := World(Split(w.db, MANIFEST_BATCH_SIZE), w.server, Sending);
            Step(w, SplitBatches) == after && ClientAt(after, -1)
  {
    SplitClient(w);
  }

  lemma SplitsQueued(w: World, scan: Scan, entries: seq<Entry>)
    requires ClientAt(Queued(w, scan, entries), -1)
    ensures Step(Queued(w, scan, entries).(pc := Flushing), SplitBatches) == Ready(w, scan, entries)
    ensures ClientAt(Ready(w, scan, entries), -1)
  {
    var flushing := Queued(w, scan, entries).(pc := Flushing);
    assert ClientAt(flushing, -1);
    SplitSteps(flushing);
  }

  lemma RunThree(w: World, a: Event, b: Event, c: Event, first: World, second: World)
    requires Step(w, a) == first && Step(first, b) == second
    ensures Run(w, [a] + [b] + [c]) == Step(second, c)
  {
    RunOne(w, a);
    RunOneMore(w, [a], b);
    RunOneMore(w, [a] + [b], c);
  }

  lemma ChoosesSending(w: World, e: Event)
    requires ClientAt(w, -1) && w.pc == Delivering && PendingOf(w.db.outbox) != []
    requires e == Choose(BatchOnly, None, PendingOf(w.db.outbox), FILE)
    ensures Step(w, e) == w.(pc := Flushing)
  {
    WholePrefix(PendingOf(w.db.outbox));
    NothingActive(w, -1);
    assert Step(w, e) == StepChoose(w, e);
  }

  // ---------- a whole sync ----------

  /** After a sync of a scan, nothing waits, and the client knows what the scan found and
      has forgotten what it missed; so does the server, where the sync changed the
      client, and elsewhere it is as it was; and the same scan again has nothing to
      queue. */
  ghost predicate Synced(w: World, scan: Scan, after: World) {
    var quarantined := QuarantineOf(w.db.outbox);
    && after.pc in {Scanning, Idle} && PendingOf(after.db.outbox) == []
    && HoldsScanned(scan, w.db.known, quarantined, after.db.known)
    && DropsUnseen(scan, w.db.known, quarantined, after.db.known)
    && (forall item ::
          if Lookup(after.db.known, item) != Lookup(w.db.known, item)
          then Lookup(after.server.occurrences, item) == Lookup(after.db.known, item)
          else Lookup(after.server.occurrences, item) == Lookup(w.server.occurrences, item))
    && forall again, gone :: IsPlan(scan, after.db.known, QuarantineOf(after.db.outbox), again, gone) ==>
         again == [] && gone == []
  }

  lemma NothingToSync(w: World, scan: Scan, after: World)
    requires Proper(scan) && PendingOf(w.db.outbox) == [] && after == w.(pc := Idle)
    requires IsPlan(scan, w.db.known, QuarantineOf(w.db.outbox), [], [])
    ensures Synced(w, scan, after)
  {
    var quarantined := QuarantineOf(w.db.outbox);
    PlannedAsScanned(scan, w.db.known, quarantined, [], [], w.db.known);
    forall again, gone | IsPlan(scan, w.db.known, quarantined, again, gone) ensures again == [] && gone == [] {
      SecondPlanIsEmpty(scan, w.db.known, w.db.known, quarantined, again, gone);
    }
  }

  /** The entries of a plan change what the client knows, each its item. */
  lemma PlanChanges(scan: Scan, known: Inventory, quarantined: map<string, string>, changed: seq<Entry>,
                    deleted: seq<Entry>, e: Entry)
    requires Proper(scan) && IsPlan(scan, known, quarantined, changed, deleted) && e in changed + deleted
    ensures Effect(e) != Lookup(known, e.item) && Planned(changed + deleted, known, e.item) == Effect(e)
  {
    PlanIsDistinct(scan, known, quarantined, changed, deleted);
    var i :| 0 <= i < |changed + deleted| && (changed + deleted)[i] == e;
    PlannedHit(changed + deleted, known, i);
    if e in deleted { assert NeedsDeletion(e.item, scan, known, quarantined); }
  }

  /** Client and server change at the same items, and alike. */
  lemma ServerFollows(scan: Scan, known: Inventory, quarantined: map<string, string>, changed: seq<Entry>,
                      deleted: seq<Entry>, after: Inventory, before: Inventory, server: Inventory, item: string)
    requires Proper(scan) && IsPlan(scan, known, quarantined, changed, deleted)
    requires Took(before, server, changed + deleted) && Lookup(after, item) == Planned(changed + deleted, known, item)
    ensures if Lookup(after, item) != Lookup(known, item) then Lookup(server, item) == Lookup(after, item)
            else Lookup(server, item) == Lookup(before, item)
  {
    if e :| e in changed + deleted && e.item == item {
      PlanChanges(scan, known, quarantined, changed, deleted, e);
    } else {
      PlannedMiss(changed + deleted, known, item);
    }
  }

  lemma DeliversPlan(w: World, scan: Scan, changed: seq<Entry>, deleted: seq<Entry>, pending: seq<Batch>)
    requires ClientAt(w, -1) && w.pc == Scanning && Proper(scan) && changed + deleted != [] && "" !in w.db.known
    requires IsPlan(scan, w.db.known, QuarantineOf(w.db.outbox), changed, deleted)
    requires pending == PendingOf(ReadyToDeliver(w.db, changed + deleted, scan.completeRead).outbox) != []
    ensures var end := Run(Ready(w, scan, changed + deleted), TakeRounds(|pending|));
            Synced(w, scan, end.(pc := Scanning)) && Sends(end, [])
  {
    var ready, entries := Ready(w, scan, changed + deleted), changed + deleted;
    QueuedNeedsNoSplit(w.db, entries, scan.completeRead);
    QueuedAsPlanned(w, scan, entries);
    OpensDelivery(w, scan, changed, deleted, pending);
    PlanIsTakable(scan, w.db.known, QuarantineOf(w.db.outbox), changed, deleted, pending);
    var responses := AllAreTaken(ready, pending, |pending|);
    var end := Run(ready, TakeRounds(|pending|));
    assert pending[..|pending|] == pending && pending[|pending|..] == [];
    assert end.db == AfterDelivery(w.db, scan, entries, responses);
    DeliveryIsSynced(w, scan, changed, deleted, responses, end);
  }

  lemma DeliveryIsSynced(w: World, scan: Scan, changed: seq<Entry>, deleted: seq<Entry>, responses: seq<Response>,
                         end: World)
    requires Delivered(w.db, scan, changed, deleted, responses)
    requires end.db == AfterDelivery(w.db, scan, changed + deleted, responses)
    requires Took(w.server.occurrences, end.server.occurrences, changed + deleted)
    ensures Synced(w, scan, end.(pc := Scanning))
  {
    var quarantined := QuarantineOf(w.db.outbox);
    SyncConverges(w.db, scan, changed, deleted, responses);
    PlanIsDistinct(scan, w.db.known, quarantined, changed, deleted);
    forall item
      ensures if Lookup(end.db.known, item) != Lookup(w.db.known, item)
              then Lookup(end.server.occurrences, item) == Lookup(end.db.known, item)
              else Lookup(end.server.occurrences, item) == Lookup(w.server.occurrences, item)
    {
      DeliveredItem(w.db, scan, changed + deleted, responses, item);
      ServerFollows(scan, w.db.known, quarantined, changed, deleted, end.db.known, w.server.occurrences,
                    end.server.occurrences, item);
    }
  }

  lemma ScanSyncs(w: World, scan: Scan) returns (events: seq<Event>)
    requires ClientAt(w, -1) && w.pc == Scanning && PendingOf(w.db.outbox) == [] && Proper(scan) && "" !in w.db.known
    ensures Synced(w, scan, Run(w, events))
  {
    var changed, deleted := PlanExists(scan, w.db.known, QuarantineOf(w.db.outbox));
    if changed + deleted == [] {
      events := [QueueScan(scan, changed, deleted)];
      RunOne(w, events[0]);
      assert changed == [] && deleted == [];
      NothingToSync(w, scan, Run(w, events));
    } else {
      var pending := PendingOf(ReadyToDeliver(w.db, changed + deleted, scan.completeRead).outbox);
      QueuedEntries(w.db, changed + deleted, scan.completeRead);
      var opening, rounds := Opening(scan, changed, deleted, pending), TakeRounds(|pending|);
      OpensDelivery(w, scan, changed, deleted, pending);
      DeliversPlan(w, scan, changed, deleted, pending);
      RunOn(w, opening, rounds);
      DrainedScans(Run(w, opening + rounds), ACCEPTING, true);
      RunOneMore(w, opening + rounds, SubmitBatch(false, ACCEPTING, true));
      events := opening + rounds + [SubmitBatch(false, ACCEPTING, true)];
    }
  }

  /** From every reachable state, through whatever transports, crashes, lost answers and
      refusals it was reached, and for every scan, the engine can drain what waits and
      then sync the scan. */
  lemma EveryStateSyncs(start: World, events: seq<Event>, scan: Scan)
    returns (drain: seq<Event>, sync: seq<Event>)
    requires Fresh(start) && Proper(scan)
    ensures Run(start, events + drain).pc == Scanning
    ensures Synced(Run(start, events + drain), scan, Run(start, events + drain + sync))
  {
    drain := EveryStateDrains(start, events);
    var w := Run(start, events + drain);
    var h := ClientRunKeeps(start, events + drain);
    RunIsNamed(start, events + drain);
    sync := ScanSyncs(w, scan);
    RunOn(start, events + drain, sync);
  }
}
