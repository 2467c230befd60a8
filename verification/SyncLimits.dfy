/** Runs that show why the theorems about runs ask for what they ask: what can
    happen to any photo whose upsert is waiting. */
module SyncLimits {
  import opened Options
  import opened Manifest
  import opened Outbox
  import opened Planning
  import opened SyncProtocol
  import Descriptions

  const EMPTY := Server(map[], map[], [])

  predicate Photo(p: Entry) {
    HashedUpsert(p) && p.item != ""
  }

  function Queued(p: Entry): Batch {
    Batch(0, BatchKey(0, 0), true, [p], Pending, [])
  }

  function Client(outbox: seq<Batch>, bulks: seq<BulkItem>, nextId: nat): Db {
    Db(0, map[], outbox, bulks, Descriptions.Tables(map[], map[], 0), nextId)
  }

  /** A client that has queued one photo and sent nothing. */
  function Begin(p: Entry): World {
    World(Client([Queued(p)], [], 1), EMPTY, Idle)
  }

  lemma OneRow(b: Batch, p: Entry)
    requires b.entries == [p] && b.state == Pending
    ensures PendingOf([b]) == [b] && EntriesOf([b]) == [p]
    ensures Oversized([b], MANIFEST_BATCH_SIZE) == []
  {
    assert [b][..0] == [];
    assert PendingOf([]) == [] && EntriesOf([]) == [] && Oversized([], MANIFEST_BATCH_SIZE) == [];
    assert PendingOf([b]) == [] + [b];
    assert EntriesOf([b]) == [] + [p];
  }

  lemma OneMember(b: Batch)
    requires b.state == Pending
    ensures Members([b], {b.id}) == [b] && IdsOf([b]) == {b.id} && IdList([b]) == [b.id] && Dedup([b.id]) == [b.id]
  {
    assert [b][..0] == [] && [b.id][..0] == [];
    assert Members([], {b.id}) == [] && Dedup([]) == [];
    assert Members([b], {b.id}) == [] + [b];
    assert Dedup([b.id]) == [] + [b.id];
    assert b in [b];
  }

  lemma OneCaptured(b: Batch)
    requires b.state == Pending
    ensures RowsOf([b], [b.id]) == b.entries && AllPending([b], [b.id])
  {
    assert [b.id][..0] == [] && RowsOf([b], []) == [];
    assert EntriesAt([b], b.id) == b.entries;
    assert b in [b];
  }

  lemma OneItem(item: BulkItem, changed: BulkItem)
    ensures FindBulk([item], item.id) == Some(0) && [item][0 := changed] == [changed]
  {
  }

  lemma BeginIsFresh(p: Entry)
    requires Photo(p)
    ensures Fresh(Begin(p))
  {
    OneRow(Queued(p), p);
  }

  lemma Next(start: World, events: seq<Event>, e: Event)
    ensures Run(start, events + [e]) == Step(Run(start, events), e)
  {
    assert (events + [e])[..|events|] == events;
  }

  // ---------- a run up to the upload of an import ----------

  const FILE := Artifact("digest", 1, 1)

  function Item(state: BulkState, serverImport: Option<nat>, status: Option<ImportStatus>): BulkItem {
    BulkItem(2, 1, FILE, state, serverImport, status, 0, false, 0, [0])
  }

  function Bulk(p: Entry, item: BulkItem): Db {
    Client([Queued(p)], [item], 3)
  }

  function WithImport(occurrences: Inventory, p: Entry, status: ImportStatus, merged: bool): Server {
    Server(occurrences, map[], [Import(1, [p], status, merged, false)])
  }

  const AWAITING := Item(At(AwaitingUpload), Some(0), Some(AwaitingUpload))

  function Upload(p: Entry): World {
    World(Bulk(p, AWAITING), WithImport(map[], p, AwaitingUpload, false), Uploading(2))
  }

  lemma OneSet(id: nat)
    ensures Dedup([id]) == [id] && SetOf([id]) == {id}
  {
    assert [id][..0] == [] && Dedup([]) == [];
  }

  lemma OneMemberOf(b: Batch, p: Entry)
    requires b.entries == [p] && b.state == Pending
    ensures var members := Members([b], SetOf(Dedup([b.id])));
            Dedup([b.id]) == [b.id] && members == [b] && IdsOf(members) == SetOf([b.id]) && EntriesOf(members) == [p]
  {
    OneRow(b, p);
    OneMember(b);
    OneSet(b.id);
  }

  lemma QueuesItem(p: Entry)
    requires Photo(p)
    ensures QueueBulk(Client([Queued(p)], [], 2), 1, FILE, [0])
         == Success((Bulk(p, Item(Prepared, None, None)), Item(Prepared, None, None)))
  {
    OneMemberOf(Queued(p), p);
    assert ActiveBulk([]) == None && FindSnapshot([], 1) == None;
    var db := Client([Queued(p)], [], 2);
    assert QueueBulk(db, 1, FILE, [0]).Success?;
    assert QueueBulk(db, 1, FILE, [0]).value.1 == Item(Prepared, None, None);
    assert QueueBulk(db, 1, FILE, [0]).value.0 == Bulk(p, Item(Prepared, None, None));
  }

  lemma Starts(p: Entry)
    ensures Step(Begin(p), Start) == Begin(p).(pc := Delivering)
  {
    OneRow(Queued(p), p);
  }

  lemma ChoosesBulk(p: Entry)
    requires Photo(p)
    ensures StepChoose(Begin(p).(pc := Delivering), Choose(BulkOnly, None, [Queued(p)], FILE))
         == World(Bulk(p, Item(Prepared, None, None)), EMPTY, Resuming(2))
  {
    var b := Queued(p);
    OneRow(b, p);
    OneMember(b);
    QueuesItem(p);
    assert EligibleForBulk([b]);
    assert ActiveBulk([]).None?;
    assert FILE.(entryCount := |EntriesOf([b])|) == FILE;
  }

  lemma WholePrefix(b: Batch)
    ensures IsBoundedPrefix([b], None, [b])
  {
  }

  lemma Captures(p: Entry)
    requires Photo(p)
    ensures Step(Begin(p).(pc := Delivering), Choose(BulkOnly, None, [Queued(p)], FILE))
         == World(Bulk(p, Item(Prepared, None, None)), EMPTY, Resuming(2))
  {
    OneRow(Queued(p), p);
    ChoosesBulk(p);
    WholePrefix(Queued(p));
  }

  lemma Creates(p: Entry)
    ensures Step(World(Bulk(p, Item(Prepared, None, None)), EMPTY, Resuming(2)), CreateRequest(false, None))
         == World(Bulk(p, Item(Prepared, None, None)), WithImport(map[], p, AwaitingUpload, false),
             Created(2, 0, AwaitingUpload))
  {
    OneItem(Item(Prepared, None, None), AWAITING);
    OneCaptured(Queued(p));
    assert ImportOf([], 1) == None;
  }

  lemma Binds(p: Entry)
    ensures var s := WithImport(map[], p, AwaitingUpload, false);
            Step(World(Bulk(p, Item(Prepared, None, None)), s, Created(2, 0, AwaitingUpload)), Commit)
            == World(Bulk(p, AWAITING), s, Refreshing(2))
  {
    OneItem(Item(Prepared, None, None), AWAITING);
  }

  lemma Refreshes(p: Entry)
    ensures var w := World(Bulk(p, AWAITING), WithImport(map[], p, AwaitingUpload, false), Refreshing(2));
            Step(Step(w, ReadStatus), Commit) == Upload(p)
  {
    OneItem(AWAITING, AWAITING);
  }

  lemma UpToCreated(p: Entry) returns (events: seq<Event>)
    requires Photo(p)
    ensures Usable(events)
    ensures Run(Begin(p), events)
         == World(Bulk(p, Item(Prepared, None, None)), WithImport(map[], p, AwaitingUpload, false),
             Created(2, 0, AwaitingUpload))
  {
    Starts(p);
    Captures(p);
    Creates(p);
    events := AppendThree(Begin(p), [], Start, Choose(BulkOnly, None, [Queued(p)], FILE), CreateRequest(false, None));
  }

  /** A run of usable answers leads to the upload. */
  lemma UpToUpload(p: Entry) returns (events: seq<Event>)
    requires Photo(p)
    ensures Usable(events) && Run(Begin(p), events) == Upload(p)
  {
    events := UpToCreated(p);
    Binds(p);
    Refreshes(p);
    events := AppendThree(Begin(p), events, Commit, ReadStatus, Commit);
  }

  /** Every status answer is well-formed and none is rejected for good. */
  predicate Usable(events: seq<Event>) {
    forall e :: e in events ==> e != StatusUnusable && e != CompleteUnusable
  }

  lemma UsableKeepsImports(start: World, events: seq<Event>)
    requires Usable(events)
    ensures KeepsImports(start, events)
  {
    forall i | 0 <= i < |events| ensures !GivesUpLive(Run(start, events[..i]), events[i]) {
      assert events[i] in events;
    }
  }

  lemma Append(start: World, events: seq<Event>, e: Event) returns (longer: seq<Event>)
    requires Usable(events) && e != StatusUnusable && e != CompleteUnusable
    ensures Usable(longer) && Run(start, longer) == Step(Run(start, events), e)
  {
    longer := events + [e];
    Next(start, events, e);
    LongerUsable(events, e);
  }

  lemma LongerUsable(events: seq<Event>, e: Event)
    requires Usable(events) && e != StatusUnusable && e != CompleteUnusable
    ensures Usable(events + [e])
  {
  }

  lemma AppendTwo(start: World, events: seq<Event>, a: Event, b: Event) returns (longer: seq<Event>)
    requires Usable(events) && Usable([a, b])
    ensures Usable(longer)
    ensures Run(start, longer) == Step(Step(Run(start, events), a), b)
  {
    assert a in [a, b] && b in [a, b];
    longer := Append(start, events, a);
    longer := Append(start, longer, b);
  }

  lemma AppendThree(start: World, events: seq<Event>, a: Event, b: Event, c: Event) returns (longer: seq<Event>)
    requires Usable(events + [a, b, c])
    ensures Usable(longer)
    ensures Run(start, longer) == Step(Step(Step(Run(start, events), a), b), c)
  {
    longer := events + [a, b, c];
    Next(start, events, a);
    Next(start, events + [a], b);
    Next(start, events + [a] + [b], c);
    assert longer == events + [a] + [b] + [c];
  }

  // ---------- an import that is given up while it runs ----------

  lemma NothingToSplit(w: World, p: Entry)
    requires w.pc == Flushing && w.db.outbox == [Queued(p)]
    ensures Step(w, SplitBatches) == World(w.db, w.server, Sending)
  {
    OneRow(Queued(p), p);
  }

  lemma GivesUpImport(p: Entry)
    ensures var after := Step(Upload(p), CompleteUnusable);
            && after.pc == Flushing && after.db.outbox == [Queued(p)] && after.db.known == map[]
            && after.server == WithImport(map[], p, ImportStatus.Queued, false)
  {
    OneItem(AWAITING, AWAITING);
    assert CompleteUpload(Upload(p).server, 0) == WithImport(map[], p, ImportStatus.Queued, false);
    assert Bound(Upload(p), 2) == Some(0);
  }

  lemma GivesUp(p: Entry)
    ensures var after := Step(Step(Upload(p), CompleteUnusable), SplitBatches);
            after.pc == Sending && after.server == WithImport(map[], p, ImportStatus.Queued, false)
  {
    GivesUpImport(p);
    NothingToSplit(Step(Upload(p), CompleteUnusable), p);
  }

  /** When the answer to the upload's completion is unusable, the import is given up
      while it is queued, and the next batch request races it. */
  lemma UnusableAnswerRaces(p: Entry) returns (usable: seq<Event>)
    requires Photo(p)
    ensures Fresh(Begin(p)) && Usable(usable)
    ensures var w := Run(Begin(p), usable + [CompleteUnusable] + [SplitBatches]);
            w.pc == Sending && |w.server.imports| == 1 && Live(w.server.imports[0].status)
  {
    BeginIsFresh(p);
    usable := UpToUpload(p);
    GivesUp(p);
    Next(Begin(p), usable, CompleteUnusable);
    Next(Begin(p), usable + [CompleteUnusable], SplitBatches);
  }

  // ---------- a request that is rejected after it had its effect ----------

  ghost predicate Differs(w: World) {
    PendingOf(w.db.outbox) == [] && w.db.known != w.server.occurrences
  }

  ghost predicate AboutToSend(w: World, p: Entry) {
    && w.pc == Sending && w.db.outbox == [Queued(p)] && w.db.known == map[]
    && w.server.occurrences == map[p.item := OccurrenceOf(p)]
  }

  const NOTHING := Verdict({}, {})

  lemma RejectsRequest(w: World, p: Entry)
    requires w.pc == Sending && w.db.outbox == [Queued(p)]
    ensures Step(w, SubmitRejected) == World(w.db, w.server, Answered(Queued(p), None))
  {
    OneRow(Queued(p), p);
  }

  lemma RejectsRow(w: World, p: Entry)
    requires w.pc == Sending && w.db.outbox == [Queued(p)]
    ensures Step(Step(w, SubmitRejected), Commit) == World(RejectRequest(w.db, Queued(p)), w.server, Sending)
  {
    RejectsRequest(w, p);
  }

  lemma RejectedRow(db: Db, p: Entry)
    requires db.outbox == [Queued(p)]
    ensures PendingOf(RejectRequest(db, Queued(p)).outbox) == [] && RejectRequest(db, Queued(p)).known == db.known
  {
    var after := RejectRequest(db, Queued(p)).outbox;
    assert |after| == 1 && after[0].state != Pending;
    assert after[..0] == [] && PendingOf([]) == [];
  }

  /** The request is rejected for good, and its entries are noted as refused. */
  lemma RejectionDiffers(w: World, p: Entry)
    requires Photo(p) && AboutToSend(w, p)
    ensures Differs(Step(Step(w, SubmitRejected), Commit))
  {
    RejectsRow(w, p);
    RejectedRow(w.db, p);
    assert p.item in w.server.occurrences && p.item !in w.db.known;
  }

  function ToSend(p: Entry, s: Server): World {
    World(Begin(p).db, s, Sending)
  }

  /** From the start of a process to its first batch request. */
  function Send(p: Entry): seq<Event> {
    [Start, Choose(BatchOnly, None, [Queued(p)], FILE), SplitBatches]
  }

  lemma StartsAny(p: Entry, s: Server)
    ensures Step(World(Begin(p).db, s, Idle), Start) == World(Begin(p).db, s, Delivering)
  {
    OneRow(Queued(p), p);
  }

  lemma ChoosesBatches(p: Entry, s: Server)
    ensures Step(World(Begin(p).db, s, Delivering), Choose(BatchOnly, None, [Queued(p)], FILE))
         == World(Begin(p).db, s, Flushing)
  {
    OneRow(Queued(p), p);
    WholePrefix(Queued(p));
    assert ActiveBulk([]).None?;
  }

  lemma SendsBatch(p: Entry, before: seq<Event>, s: Server)
    requires Run(Begin(p), before) == World(Begin(p).db, s, Idle)
    ensures Run(Begin(p), before + Send(p)) == ToSend(p, s)
  {
    StartsAny(p, s);
    ChoosesBatches(p, s);
    NothingToSplit(World(Begin(p).db, s, Flushing), p);
    RunThree(Begin(p), before, Start, Choose(BatchOnly, None, [Queued(p)], FILE), SplitBatches);
  }

  lemma RunThree(start: World, events: seq<Event>, a: Event, b: Event, c: Event)
    ensures Run(start, events + [a, b, c]) == Step(Step(Step(Run(start, events), a), b), c)
  {
    RunTwo(start, events, a, b);
    Next(start, events + [a, b], c);
    assert events + [a, b, c] == events + [a, b] + [c];
  }

  lemma RunTwo(start: World, events: seq<Event>, a: Event, b: Event)
    ensures Run(start, events + [a, b]) == Step(Step(Run(start, events), a), b)
  {
    Next(start, events, a);
    Next(start, events + [a], b);
    assert events + [a, b] == events + [a] + [b];
  }

  lemma ProcessesPhoto(p: Entry)
    requires Photo(p)
    ensures Process(map[], [p], true, NOTHING).0 == map[p.item := OccurrenceOf(p)]
  {
    assert [p][..0] == [] && Process(map[], [], true, NOTHING) == (map[], []);
    assert Judge(map[], [], p, true, NOTHING) == CreatedOccurrence;
  }

  /** The server after the first request; its answer is lost. */
  function Unanswered(p: Entry): Server {
    Submit(EMPTY, Queued(p), NOTHING, false).0
  }

  lemma UnansweredHolds(p: Entry)
    requires Photo(p)
    ensures Unanswered(p).occurrences == map[p.item := OccurrenceOf(p)]
  {
    ProcessesPhoto(p);
  }

  /** A request whose answer is lost leaves its effect and stops the engine. */
  lemma SubmitLost(w: World, b: Batch, v: Verdict)
    requires w.pc == Sending && PendingOf(w.db.outbox) == [b]
    ensures Step(w, SubmitBatch(true, v, false)) == World(w.db, Submit(w.server, b, v, false).0, Idle)
  {
    assert Step(w, SubmitBatch(true, v, false)) == StepSubmit(w, true, v, false);
  }

  lemma LosesReply(p: Entry)
    requires Photo(p)
    ensures Step(ToSend(p, EMPTY), SubmitBatch(true, NOTHING, false)) == World(Begin(p).db, Unanswered(p), Idle)
    ensures Unanswered(p).occurrences == map[p.item := OccurrenceOf(p)]
  {
    OneRow(Queued(p), p);
    SubmitLost(ToSend(p, EMPTY), Queued(p), NOTHING);
    UnansweredHolds(p);
  }

  function Lost(p: Entry): seq<Event> {
    Send(p) + [SubmitBatch(true, NOTHING, false)]
  }

  lemma LostRun(p: Entry)
    requires Photo(p)
    ensures Run(Begin(p), Lost(p) + Send(p)) == ToSend(p, Unanswered(p))
  {
    SendsBatch(p, [], EMPTY);
    assert [] + Send(p) == Send(p);
    LosesReply(p);
    Next(Begin(p), Send(p), SubmitBatch(true, NOTHING, false));
    SendsBatch(p, Lost(p), Unanswered(p));
  }

  predicate OnlyBatches(events: seq<Event>) {
    forall e :: e in events ==> (e.Choose? ==> e.transport == BatchOnly) && (e.SubmitBatch? ==> !e.expired)
  }

  lemma PlainSend(p: Entry)
    ensures Usable(Send(p)) && OnlyBatches(Send(p))
  {
  }

  lemma Joined(a: seq<Event>, b: seq<Event>)
    requires Usable(a) && OnlyBatches(a) && Usable(b) && OnlyBatches(b)
    ensures Usable(a + b) && OnlyBatches(a + b)
  {
  }

  function Retried(p: Entry): seq<Event> {
    Lost(p) + Send(p) + [SubmitRejected, Commit]
  }

  lemma RetriedIsPlain(p: Entry)
    ensures Usable(Retried(p)) && OnlyBatches(Retried(p))
  {
    PlainSend(p);
    Joined(Send(p), [SubmitBatch(true, NOTHING, false)]);
    Joined(Lost(p), Send(p));
    Joined(Lost(p) + Send(p), [SubmitRejected, Commit]);
  }

  lemma RetriedRun(p: Entry)
    requires Photo(p)
    ensures Run(Begin(p), Retried(p)) == Step(Step(ToSend(p, Unanswered(p)), SubmitRejected), Commit)
  {
    LostRun(p);
    RunTwo(Begin(p), Lost(p) + Send(p), SubmitRejected, Commit);
  }

  lemma RetriedDiffers(p: Entry)
    requires Photo(p)
    ensures Differs(Step(Step(ToSend(p, Unanswered(p)), SubmitRejected), Commit))
  {
    LosesReply(p);
    RejectionDiffers(ToSend(p, Unanswered(p)), p);
  }

  /** When the answer to a batch is lost and the repeated request is rejected for
      good, the inventories differ although nothing is pending: no import is used,
      every answer is usable and no stored reply expires. */
  lemma RejectedRetryDiffers(p: Entry) returns (events: seq<Event>)
    requires Photo(p)
    ensures Fresh(Begin(p)) && Usable(events) && OnlyBatches(events) && Differs(Run(Begin(p), events))
  {
    events := Retried(p);
    BeginIsFresh(p);
    RetriedIsPlain(p);
    RetriedRun(p);
    RetriedDiffers(p);
  }

  // ---------- an import that is merged and then aborted ----------

  lemma Completes(p: Entry)
    ensures Step(Upload(p), CompleteRequest(false))
         == World(Bulk(p, AWAITING), WithImport(map[], p, ImportStatus.Queued, false), Uploaded(2, ImportStatus.Queued))
  {
    OneItem(AWAITING, AWAITING);
    assert CompleteUpload(Upload(p).server, 0) == WithImport(map[], p, ImportStatus.Queued, false);
    assert Bound(Upload(p), 2) == Some(0);
  }

  lemma MergesRow(p: Entry)
    requires Photo(p)
    ensures Merge(map[], [p], {}) == map[p.item := OccurrenceOf(p)] && !AnyRejected([p], {})
  {
    assert [p][..0] == [] && Merge(map[], [], {}) == map[];
    assert !MergeRejects([p], 0, {});
  }

  lemma Merges(p: Entry)
    requires Photo(p)
    ensures var s := WithImport(map[], p, ImportStatus.Queued, false);
            StepServer(StepServer(StepServer(s, ServerStart(0)), ServerMerge(0, {})), ServerAbort(0, FailedPermanent))
            == WithImport(map[p.item := OccurrenceOf(p)], p, FailedPermanent, true)
  {
    MergesRow(p);
    var s := WithImport(map[], p, ImportStatus.Queued, false);
    var s1 := StepServer(s, ServerStart(0));
    assert s1 == WithImport(map[], p, Running, false);
    var s2 := StepServer(s1, ServerMerge(0, {}));
    assert s2 == WithImport(map[p.item := OccurrenceOf(p)], p, Running, true);
  }

  const QUEUED := Item(At(ImportStatus.Queued), Some(0), Some(ImportStatus.Queued))
  const FAILED := Item(At(FailedPermanent), Some(0), Some(FailedPermanent))

  lemma RecordsQueued(p: Entry, s: Server)
    ensures Step(World(Bulk(p, AWAITING), s, Uploaded(2, ImportStatus.Queued)), Commit)
         == World(Bulk(p, QUEUED), s, Polling(2, ImportStatus.Queued))
  {
    OneItem(AWAITING, QUEUED);
  }

  lemma PollsFailure(p: Entry, s: Server)
    requires |s.imports| == 1 && s.imports[0].status == FailedPermanent
    ensures Step(World(Bulk(p, QUEUED), s, Polling(2, ImportStatus.Queued)), ReadStatus)
         == World(Bulk(p, QUEUED), s, Polled(2, FailedPermanent))
  {
    OneItem(QUEUED, QUEUED);
    assert Bound(World(Bulk(p, QUEUED), s, Polling(2, ImportStatus.Queued)), 2) == Some(0);
  }

  lemma RecordsFailure(p: Entry, s: Server)
    ensures Step(World(Bulk(p, QUEUED), s, Polled(2, FailedPermanent)), Commit)
         == World(Bulk(p, FAILED), s, Polling(2, FailedPermanent))
  {
    OneItem(QUEUED, FAILED);
  }

  lemma ReadsFailure(p: Entry, s: Server)
    requires |s.imports| == 1 && s.imports[0].status == FailedPermanent
    ensures var w := World(Bulk(p, AWAITING), s, Uploaded(2, ImportStatus.Queued));
            Step(Step(Step(w, Commit), ReadStatus), Commit) == World(Bulk(p, FAILED), s, Polling(2, FailedPermanent))
  {
    RecordsQueued(p, s);
    PollsFailure(p, s);
    RecordsFailure(p, s);
  }

  lemma Decides(p: Entry, s: Server)
    ensures Step(World(Bulk(p, FAILED), s, Polling(2, FailedPermanent)), Decide(false))
            == World(Bulk(p, FAILED), s, Flushing)
  {
    OneItem(FAILED, FAILED);
  }

  lemma FallsBack(p: Entry, s: Server)
    ensures var w := World(Bulk(p, FAILED), s, Polling(2, FailedPermanent));
            var after := Step(Step(w, Decide(false)), SplitBatches);
            after.pc == Sending && after.server == s && after.db.outbox == [Queued(p)] && after.db.known == map[]
  {
    Decides(p, s);
    NothingToSplit(World(Bulk(p, FAILED), s, Flushing), p);
  }

  lemma MergesThenAborts(p: Entry)
    requires Photo(p)
    ensures var s := WithImport(map[], p, ImportStatus.Queued, false);
            var w := World(Bulk(p, AWAITING), s, Uploaded(2, ImportStatus.Queued));
            Step(Step(Step(w, ServerStart(0)), ServerMerge(0, {})), ServerAbort(0, FailedPermanent))
            == w.(server := WithImport(map[p.item := OccurrenceOf(p)], p, FailedPermanent, true))
  {
    Merges(p);
  }

  lemma MergedThenAborted(p: Entry) returns (events: seq<Event>)
    requires Photo(p)
    ensures Usable(events)
    ensures Run(Begin(p), events)
         == World(Bulk(p, AWAITING), WithImport(map[p.item := OccurrenceOf(p)], p, FailedPermanent, true),
             Uploaded(2, ImportStatus.Queued))
  {
    events := UpToUpload(p);
    Completes(p);
    events := Append(Begin(p), events, CompleteRequest(false));
    MergesThenAborts(p);
    events := AppendThree(Begin(p), events, ServerStart(0), ServerMerge(0, {}), ServerAbort(0, FailedPermanent));
  }

  lemma MergedThenGivenUp(p: Entry) returns (events: seq<Event>)
    requires Photo(p)
    ensures Usable(events) && AboutToSend(Run(Begin(p), events), p)
  {
    var merged := WithImport(map[p.item := OccurrenceOf(p)], p, FailedPermanent, true);
    events := MergedThenAborted(p);
    ReadsFailure(p, merged);
    events := AppendThree(Begin(p), events, Commit, ReadStatus, Commit);
    FallsBack(p, merged);
    events := Append(Begin(p), events, Decide(false));
    events := Append(Begin(p), events, SplitBatches);
  }

  /** When an import is merged and then aborted, and the batch that replaces it is
      rejected for good, the inventories differ although nothing is pending. */
  lemma AbortedImportDiffers(p: Entry) returns (events: seq<Event>)
    requires Photo(p)
    ensures Fresh(Begin(p)) && Usable(events) && Differs(Run(Begin(p), events))
  {
    BeginIsFresh(p);
    events := MergedThenGivenUp(p);
    events := ThenRejected(p, events);
  }

  lemma ThenRejected(p: Entry, before: seq<Event>) returns (events: seq<Event>)
    requires Photo(p) && Usable(before) && AboutToSend(Run(Begin(p), before), p)
    ensures Usable(events) && Differs(Run(Begin(p), events))
  {
    RejectionDiffers(Run(Begin(p), before), p);
    events := AppendTwo(Begin(p), before, SubmitRejected, Commit);
  }

  // ---------- an import that is given up and merged later ----------

  lemma MergesLate(p: Entry)
    requires Photo(p)
    ensures StepServer(StepServer(WithImport(map[], p, ImportStatus.Queued, false), ServerStart(0)), ServerMerge(0, {}))
         == WithImport(map[p.item := OccurrenceOf(p)], p, Running, true)
  {
    MergesRow(p);
    var running := StepServer(WithImport(map[], p, ImportStatus.Queued, false), ServerStart(0));
    assert running == WithImport(map[], p, Running, false);
  }

  lemma LateMergeDiffers(w: World, p: Entry)
    requires Photo(p) && w.pc == Sending && w.db.outbox == [Queued(p)] && w.db.known == map[]
    requires w.server == WithImport(map[], p, ImportStatus.Queued, false)
    ensures Differs(Step(Step(Step(Step(w, SubmitRejected), Commit), ServerStart(0)), ServerMerge(0, {})))
  {
    RejectsRow(w, p);
    RejectedRow(w.db, p);
    MergesLate(p);
    assert p.item in map[p.item := OccurrenceOf(p)];
  }

  lemma GivenUpRun(p: Entry, before: seq<Event>)
    requires Run(Begin(p), before) == Upload(p)
    ensures Run(Begin(p), before + [CompleteUnusable, SplitBatches])
         == Step(Step(Upload(p), CompleteUnusable), SplitBatches)
  {
    RunTwo(Begin(p), before, CompleteUnusable, SplitBatches);
  }

  /** When the answer to the upload's completion is unusable, the batch that replaces
      the import is rejected for good, and the server merges the import after that,
      the inventories differ although nothing is pending: the server holds nothing
      when the answer that refuses the photo is about to be stored. */
  lemma GivenUpImportDiffers(p: Entry) returns (usable: seq<Event>)
    requires Photo(p)
    ensures Fresh(Begin(p)) && Usable(usable)
    ensures var w := Run(Begin(p), usable + [CompleteUnusable, SplitBatches] + [SubmitRejected]);
            w.pc == Answered(Queued(p), None) && w.server.occurrences == map[]
    ensures var events := usable + [CompleteUnusable, SplitBatches] + [SubmitRejected, Commit]
                                 + [ServerStart(0), ServerMerge(0, {})];
            Differs(Run(Begin(p), events))
  {
    BeginIsFresh(p);
    usable := UpToUpload(p);
    var sent := usable + [CompleteUnusable, SplitBatches];
    var w := Step(Step(Upload(p), CompleteUnusable), SplitBatches);
    GivesUpImport(p);
    NothingToSplit(Step(Upload(p), CompleteUnusable), p);
    GivenUpRun(p, usable);
    LateMergeDiffers(w, p);
    RejectsRequest(w, p);
    Next(Begin(p), sent, SubmitRejected);
    RunTwo(Begin(p), sent, SubmitRejected, Commit);
    RunTwo(Begin(p), sent + [SubmitRejected, Commit], ServerStart(0), ServerMerge(0, {}));
  }
}
