/** The theorems about every run of the synchronization protocol. */
module SyncTheorems {
  import opened Options
  import opened Manifest
  import opened Outbox
  import opened Planning
  import opened SyncProtocol
  import opened SyncInvariant
  import opened SyncSteps
  import opened SyncTables
  import opened SyncClient
  import opened SyncSafety
  import opened SyncBulk

  // ---------- the remaining steps ----------

  lemma StartKeeps(w: World, h: int) returns (h': int)
    requires ClientAt(w, h)
    ensures Keeps(w, h, Step(w, Start), h')
  {
    h' := h;
    if w.pc == Idle && PendingOf(w.db.outbox) == [] { NothingPendingNothingHot(w.db, h); }
  }

  lemma NewItemSubmissions(bulks: seq<BulkItem>, item: BulkItem, imports: seq<Import>)
    requires SubmissionsOk(bulks, imports)
    ensures SubmissionsOk(bulks + [item], imports)
  {
    var after := bulks + [item];
    forall k | 0 <= k < |imports| && (Live(imports[k].status) || imports[k].merged)
      ensures exists i :: 0 <= i < |after| && BoundTo(after[i], k, Live(imports[k].status))
    {
      var i :| 0 <= i < |bulks| && BoundTo(bulks[i], k, Live(imports[k].status));
      assert BoundTo(after[i], k, Live(imports[k].status));
    }
  }

  lemma NewItemServer(w: World, item: BulkItem, after: Db)
    requires InvAt(w, -1) && item.serverImport.None? && item.snapshot == w.db.nextId
    requires after == w.db.(bulks := w.db.bulks + [item], nextId := w.db.nextId + 2)
    ensures ServerAt(World(after, w.server, Resuming(item.id)), |w.db.bulks|)
  {
    forall i | 0 <= i < |after.bulks| ensures BindingOk(after, after.bulks[i], w.server.imports) {
      if i < |w.db.bulks| { assert BindingOk(w.db, w.db.bulks[i], w.server.imports); }
    }
    NewItemSubmissions(w.db.bulks, item, w.server.imports);
    PendingRepliesStay(w.db, w.server, after);
  }

  /** A new item captures pending rows, all of them hashed upserts. */
  lemma QueueBulkKeeps(w: World, selected: seq<Batch>, artifact: Artifact)
    requires ClientAt(w, -1) && selected <= PendingOf(w.db.outbox) && EligibleForBulk(selected)
    requires QueueBulk(w.db.(nextId := w.db.nextId + 1), w.db.nextId, artifact, IdList(selected)).Success?
    ensures var r := QueueBulk(w.db.(nextId := w.db.nextId + 1), w.db.nextId, artifact, IdList(selected));
            Keeps(w, -1, World(r.value.0, w.server, Resuming(r.value.1.id)), |w.db.bulks|)
  {
    QueueBulkClient(w, selected, artifact);
    var item := NewBulk(w.db, artifact, selected);
    if ServerAt(w, -1) {
      NewItemServer(w, item, w.db.(bulks := w.db.bulks + [item], nextId := w.db.nextId + 2));
    }
  }

  lemma ChooseActiveKeeps(w: World, h: int, e: Event) returns (h': int)
    requires ClientAt(w, h) && e.Choose? && w.pc == Delivering && ActiveBulk(w.db.bulks).Some?
    ensures Keeps(w, h, StepChoose(w, e), h')
  {
    h' := h;
    var active := ActiveBulk(w.db.bulks).value;
    ActiveIsHot(w.db, h);
    if e.transport == BatchOnly && active.serverImport.None? {
      assert StepChoose(w, e) == FallBack(w, active.id, Cancelled);
      FallBackKeeps(w, h, active.id, Cancelled);
      h' := -1;
    } else if ServerAt(w, h) {
      HeldBound(w, h, active.id);
    }
  }

  /** With nothing active no item is hot, whichever index stands for it. */
  lemma NothingActive(w: World, h: int)
    requires ClientAt(w, h) && w.pc == Delivering && ActiveBulk(w.db.bulks).None?
    ensures ClientAt(w, -1) && (ServerAt(w, h) ==> ServerAt(w, -1))
  {
  }

  lemma ChooseNewKeeps(w: World, h: int, e: Event) returns (h': int)
    requires ClientAt(w, h) && e.Choose? && w.pc == Delivering && ActiveBulk(w.db.bulks).None?
    ensures Keeps(w, h, StepChoose(w, e), h')
  {
    h' := -1;
    NothingActive(w, h);
    var pending := PendingOf(w.db.outbox);
    if !(pending == [] || e.transport == BatchOnly || !(e.selected <= pending)
         || (e.transport == Auto && !ThresholdMet(e.selected)) || !EligibleForBulk(e.selected)) {
      var artifact := e.artifact.(entryCount := |EntriesOf(e.selected)|);
      var r := QueueBulk(w.db.(nextId := w.db.nextId + 1), w.db.nextId, artifact, IdList(e.selected));
      if r.Success? {
        assert StepChoose(w, e) == World(r.value.0, w.server, Resuming(r.value.1.id));
        QueueBulkKeeps(w, e.selected, artifact);
        h' := |w.db.bulks|;
      }
    }
  }

  lemma ChooseKeeps(w: World, h: int, e: Event) returns (h': int)
    requires ClientAt(w, h) && e.Choose? && w.pc == Delivering
    ensures Keeps(w, h, StepChoose(w, e), h')
  {
    if ActiveBulk(w.db.bulks).Some? { h' := ChooseActiveKeeps(w, h, e); } else { h' := ChooseNewKeeps(w, h, e); }
  }

  lemma ReadStatusClient(w: World, h: int)
    requires ClientAt(w, h)
    ensures ClientAt(StepReadStatus(w), h)
  {
  }

  lemma ReadStatusServer(w: World, h: int)
    requires InvAt(w, h)
    ensures ServerAt(StepReadStatus(w), h)
  {
    if w.pc.EscapeReading? || w.pc.Refreshing? || w.pc.Polling? {
      HeldBound(w, h, w.pc.bulk);
      var status := StatusOf(w, h);
      assert StepReadStatus(w).pc
             in {w.pc, EscapeRead(w.pc.bulk, status), Refreshed(w.pc.bulk, status), Polled(w.pc.bulk, status)};
      assert StepReadStatus(w) == w.(pc := StepReadStatus(w).pc);
    } else {
      assert StepReadStatus(w) == w;
    }
  }

  lemma ReadStatusKeeps(w: World, h: int)
    requires ClientAt(w, h)
    ensures Keeps(w, h, StepReadStatus(w), h)
  {
    ReadStatusClient(w, h);
    if ServerAt(w, h) { ReadStatusServer(w, h); }
  }

  lemma CommitKeeps(w: World, h: int) returns (h': int)
    requires ClientAt(w, h)
    ensures Keeps(w, h, StepCommit(w), h')
  {
    h' := h;
    match w.pc
    case EscapeRead(b, status) => RecordKeeps(w, h, b, status, EscapeDeciding(b, status));
    case Created(b, i, status) => h' := BindKeeps(w, h);
    case Refreshed(b, status) =>
      RecordKeeps(w, h, b, status, if status == AwaitingUpload then Uploading(b) else Polling(b, status));
    case Reconciled(b, status) =>
      RecordKeeps(w, h, b, status, if status == AwaitingUpload then Uploading(b) else Polling(b, status));
    case Uploaded(b, status) => RecordKeeps(w, h, b, status, Polling(b, status));
    case Polled(b, status) => RecordKeeps(w, h, b, status, Polling(b, status));
    case Answered(batch, response) => StoredKeeps(w, h); h' := -1;
    case _ =>
  }

  lemma RejectedKeeps(w: World, h: int) returns (h': int)
    requires ClientAt(w, h)
    ensures Keeps(w, h, StepRejected(w), h')
  {
    h' := h;
    if w.pc.Resuming? || w.pc.Uploading? || w.pc.OpeningResult? || w.pc.ApplyingPages? {
      if ServerAt(w, h) { HeldBound(w, h, w.pc.bulk); }
      if !(w.pc.Resuming? && Bound(w, w.pc.bulk).Some?) {
        FallBackKeeps(w, h, w.pc.bulk, FailedPermanent);
        h' := -1;
      }
    }
  }

  lemma DecideEscapeKeeps(w: World, h: int, giveUp: bool) returns (h': int)
    requires ClientAt(w, h) && w.pc.EscapeDeciding?
    ensures Keeps(w, h, StepDecide(w, giveUp), h')
  {
    h' := h;
    if w.pc.status == AwaitingUpload {
      assert StepDecide(w, giveUp) == FallBack(w, w.pc.bulk, Cancelled);
      FallBackKeeps(w, h, w.pc.bulk, Cancelled);
      h' := -1;
    }
  }

  lemma DecidePollKeeps(w: World, h: int, giveUp: bool) returns (h': int)
    requires ClientAt(w, h) && w.pc.Polling?
    ensures Keeps(w, h, StepDecide(w, giveUp), h')
  {
    h' := h;
    if Over(w.pc.status) && (w.pc.status != Succeeded || giveUp) {
      assert StepDecide(w, giveUp) == FallBack(w, w.pc.bulk, FailedPermanent);
      FallBackKeeps(w, h, w.pc.bulk, FailedPermanent);
      h' := -1;
    }
  }

  lemma DecideKeeps(w: World, h: int, giveUp: bool) returns (h': int)
    requires ClientAt(w, h)
    ensures Keeps(w, h, StepDecide(w, giveUp), h')
  {
    if w.pc.EscapeDeciding? {
      h' := DecideEscapeKeeps(w, h, giveUp);
    } else if w.pc.Polling? {
      h' := DecidePollKeeps(w, h, giveUp);
    } else {
      assert StepDecide(w, giveUp) == w;
      h' := h;
    }
  }

  // ---------- opening a result ----------

  lemma SaveParts(w: World, h: nat)
    requires w.pc.OpeningResult? && FindBulk(w.db.bulks, w.pc.bulk) == Some(h)
    requires RecordResult(w.db, w.pc.bulk).Success?
    ensures RecordResult(w.db, w.pc.bulk).value == w.db.(bulks := w.db.bulks[h := SavedItem(w.db.bulks[h])])
  {
  }

  lemma SaveClient(w: World, h: int)
    requires ClientAt(w, h) && w.pc.OpeningResult?
    ensures ClientAt(w.(db := w.db.(bulks := w.db.bulks[h := SavedItem(w.db.bulks[h])])), h)
  {
    UpdatedClient(w.db, h, SavedItem(w.db.bulks[h]));
  }

  lemma SaveKeeps(w: World, h: int)
    requires ClientAt(w, h) && w.pc.OpeningResult?
    ensures Keeps(w, h, w.(db := w.db.(bulks := w.db.bulks[h := SavedItem(w.db.bulks[h])])), h)
  {
    var after := w.db.(bulks := w.db.bulks[h := SavedItem(w.db.bulks[h])]);
    SaveClient(w, h);
    if ServerAt(w, h) { UpdatedLists(w.db, w.server, h, SavedItem(w.db.bulks[h]), after); }
  }

  /** The engine goes on with the saved result, or falls back. */
  function OpenSaved(w: World, h: nat): World
    requires w.pc.OpeningResult? && h < |w.db.bulks|
  {
    var item := w.db.bulks[h];
    if |RowsOf(w.db.outbox, item.captured)| != item.artifact.entryCount || !AllPending(w.db.outbox, item.captured)
    then FallBack(w, item.id, FailedPermanent)
    else w.(pc := ApplyingPages(item.id))
  }

  lemma OpenParts(w: World, h: nat, fileExists: bool)
    requires w.pc.OpeningResult? && FindBulk(w.db.bulks, w.pc.bulk) == Some(h)
    ensures var item := w.db.bulks[h];
            var saved := w.(db := w.db.(bulks := w.db.bulks[h := SavedItem(item)]));
            StepOpenResult(w, fileExists)
            == if item.resultSaved && fileExists then OpenSaved(w, h)
               else if RecordResult(w.db, w.pc.bulk).Failure? then FallBack(w, item.id, FailedPermanent)
               else OpenSaved(saved, h)
  {
    if RecordResult(w.db, w.pc.bulk).Success? { SaveParts(w, h); }
  }

  lemma OpenSavedKeeps(w: World, h: int) returns (h': int)
    requires ClientAt(w, h) && w.pc.OpeningResult?
    ensures Keeps(w, h, OpenSaved(w, h), h')
  {
    var item := w.db.bulks[h];
    h' := h;
    if |RowsOf(w.db.outbox, item.captured)| != item.artifact.entryCount || !AllPending(w.db.outbox, item.captured) {
      FallBackKeeps(w, h, w.pc.bulk, FailedPermanent);
      h' := -1;
    }
  }

  lemma OpenResultKeeps(w: World, h: int, fileExists: bool) returns (h': int)
    requires ClientAt(w, h)
    ensures Keeps(w, h, StepOpenResult(w, fileExists), h')
  {
    h' := h;
    if w.pc.OpeningResult? {
      HeldItem(w, h, w.pc.bulk);
      OpenParts(w, h, fileExists);
      var item := w.db.bulks[h];
      var saved := w.(db := w.db.(bulks := w.db.bulks[h := SavedItem(item)]));
      if item.resultSaved && fileExists {
        h' := OpenSavedKeeps(w, h);
      } else if RecordResult(w.db, w.pc.bulk).Failure? {
        FallBackKeeps(w, h, w.pc.bulk, FailedPermanent);
        h' := -1;
      } else {
        SaveKeeps(w, h);
        h' := OpenSavedKeeps(saved, h);
        KeepsTwice(w, h, saved, h, OpenSaved(saved, h), h');
      }
    }
  }

  // ---------- every step ----------

  predicate BatchEvent(e: Event) {
    e.Start? || e.Crash? || e.QueueScan? || e.Choose? || e.SplitBatches? || e.SubmitBatch? || e.SubmitRejected?
        || e.Commit?
  }

  predicate ServerEvent(e: Event) {
    e.ServerStart? || e.ServerRetry? || e.ServerMerge? || e.ServerFinish? || e.ServerAbort?
  }

  lemma BatchStepKeeps(w: World, h: int, e: Event) returns (h': int)
    requires ClientAt(w, h) && BatchEvent(e)
    ensures Keeps(w, h, Step(w, e), h')
  {
    if e.Start? || e.Crash? || e.QueueScan? || e.Choose? {
      h' := OpeningStepKeeps(w, h, e);
    } else {
      h' := SendingStepKeeps(w, h, e);
    }
  }

  lemma SendingStepKeeps(w: World, h: int, e: Event) returns (h': int)
    requires ClientAt(w, h) && (e.SplitBatches? || e.SubmitBatch? || e.SubmitRejected? || e.Commit?)
    ensures Keeps(w, h, Step(w, e), h')
  {
    h' := h;
    var after := Step(w, e);
    match e
    case SplitBatches => SplitStepKeeps(w, h);
    case SubmitBatch(lost, verdict, expired) =>
      assert after == StepSubmit(w, lost, verdict, expired);
      if w.pc == Sending { SubmitKeeps(w, h, lost, verdict, expired); }
    case SubmitRejected => SubmitRejectedKeeps(w, h);
    case Commit =>
      assert after == StepCommit(w);
      h' := CommitKeeps(w, h);
  }

  lemma SplitStepKeeps(w: World, h: int)
    requires ClientAt(w, h)
    ensures Keeps(w, h, Step(w, SplitBatches), h)
  {
    if w.pc == Flushing {
      assert Step(w, SplitBatches) == World(Split(w.db, MANIFEST_BATCH_SIZE), w.server, Sending);
      SplitKeeps(w);
    } else {
      assert Step(w, SplitBatches) == w;
    }
  }

  lemma OpeningStepKeeps(w: World, h: int, e: Event) returns (h': int)
    requires ClientAt(w, h) && (e.Start? || e.Crash? || e.QueueScan? || e.Choose?)
    ensures Keeps(w, h, Step(w, e), h')
  {
    h' := h;
    match e
    case Start => h' := StartKeeps(w, h);
    case Crash => CrashKeeps(w, h);
    case QueueScan(scan, changed, deleted) => QueueScanKeeps(w, h, scan, changed, deleted);
    case Choose(_, maximumRows, selected, _) =>
      if w.pc == Delivering && IsBoundedPrefix(PendingOf(w.db.outbox), maximumRows, selected) {
        h' := ChooseKeeps(w, h, e);
      }
  }

  lemma CrashKeeps(w: World, h: int)
    requires ClientAt(w, h)
    ensures Keeps(w, h, w.(pc := Idle), h)
  {
  }

  lemma QueueScanKeeps(w: World, h: int, scan: Scan, changed: seq<Entry>, deleted: seq<Entry>)
    requires ClientAt(w, h)
    ensures Keeps(w, h, Step(w, QueueScan(scan, changed, deleted)), h)
  {
    if w.pc == Scanning && Proper(scan) && IsPlan(scan, w.db.known, QuarantineOf(w.db.outbox), changed, deleted) {
      QueueKeeps(w, scan, changed, deleted);
    }
  }

  lemma SubmitRejectedKeeps(w: World, h: int)
    requires ClientAt(w, h)
    ensures Keeps(w, h, Step(w, SubmitRejected), h)
  {
    if w.pc == Sending && PendingOf(w.db.outbox) != [] {
      PendingMembers(w.db.outbox);
      var b := PendingOf(w.db.outbox)[0];
      assert b in PendingOf(w.db.outbox);
      assert Step(w, SubmitRejected) == w.(pc := Answered(b, None));
    } else {
      assert Step(w, SubmitRejected) == w;
    }
  }

  lemma NotAwaitingKeeps(w: World, h: int)
    requires ClientAt(w, h)
    ensures Keeps(w, h, StepNotAwaiting(w), h)
  {
    if w.pc.Uploading? && ServerAt(w, h) {
      HeldBound(w, h, w.pc.bulk);
    }
  }

  // ---------- unusable answers ----------

  /** Giving the item up keeps the client's part in any case, and the server's part
      when the import of the item is not running. */
  lemma StatusUnusableKeeps(w: World, h: int) returns (h': int)
    requires ClientAt(w, h)
    ensures ClientAt(StepStatusUnusable(w), h')
    ensures !GivesUpLive(w, StatusUnusable) ==> Keeps(w, h, StepStatusUnusable(w), h')
  {
    h' := h;
    if AsksStatus(w.pc) {
      var state := if w.pc.EscapeReading? then Cancelled else FailedPermanent;
      h' := -1;
      assert StepStatusUnusable(w) == FallBack(w, w.pc.bulk, state);
      FallBackClient(w, h, w.pc.bulk, state);
      if ServerAt(w, h) && !GivesUpLive(w, StatusUnusable) {
        HeldBound(w, h, w.pc.bulk);
        FallBackServer(w, h, w.pc.bulk, state);
      }
    } else {
      assert StepStatusUnusable(w) == w;
    }
  }

  /** An upload of an import that is over changes nothing on the server. */
  lemma CompleteUnusableServer(w: World, h: int)
    requires InvAt(w, h) && w.pc.Uploading? && !GivesUpLive(w, CompleteUnusable)
    ensures ServerAt(StepCompleteUnusable(w), -1)
  {
    HeldBound(w, h, w.pc.bulk);
    assert CompleteUpload(w.server, Bound(w, w.pc.bulk).value) == w.server && w.(server := w.server) == w;
    assert StepCompleteUnusable(w) == FallBack(w, w.pc.bulk, FailedPermanent);
    FallBackServer(w, h, w.pc.bulk, FailedPermanent);
  }

  lemma CompleteUnusableKeeps(w: World, h: int) returns (h': int)
    requires ClientAt(w, h)
    ensures ClientAt(StepCompleteUnusable(w), h')
    ensures !GivesUpLive(w, CompleteUnusable) ==> Keeps(w, h, StepCompleteUnusable(w), h')
  {
    h' := h;
    if w.pc.Uploading? && Bound(w, w.pc.bulk).Some? {
      FallBackClient(w.(server := CompleteUpload(w.server, Bound(w, w.pc.bulk).value)), h, w.pc.bulk, FailedPermanent);
      h' := -1;
    }
    if w.pc.Uploading? && ServerAt(w, h) {
      HeldBound(w, h, w.pc.bulk);
      if !GivesUpLive(w, CompleteUnusable) { CompleteUnusableServer(w, h); }
    }
  }

  predicate ResultEvent(e: Event) {
    e.Decide? || e.OpenResult? || e.ApplyPage? || e.FinishResult?
  }

  lemma RequestStepKeeps(w: World, h: int, e: Event) returns (h': int)
    requires ClientAt(w, h) && !BatchEvent(e) && !ServerEvent(e) && !ResultEvent(e)
    ensures ClientAt(Step(w, e), h')
    ensures !GivesUpLive(w, e) ==> Keeps(w, h, Step(w, e), h')
  {
    h' := h;
    var after := Step(w, e);
    match e
    case ReadStatus => assert after == StepReadStatus(w); ReadStatusKeeps(w, h);
    case CreateRequest(lost, superseded) =>
      assert after == StepCreate(w, lost, superseded);
      if w.pc.Resuming? { h' := CreateKeeps(w, h, lost, superseded); }
    case RequestRejected => assert after == StepRejected(w); h' := RejectedKeeps(w, h);
    case CompleteRequest(lost) => assert after == StepComplete(w, lost); CompleteUploadKeeps(w, h, lost);
    case NotAwaitingUpload => assert after == StepNotAwaiting(w); NotAwaitingKeeps(w, h);
    case StatusUnusable => assert after == StepStatusUnusable(w); h' := StatusUnusableKeeps(w, h);
    case CompleteUnusable => assert after == StepCompleteUnusable(w); h' := CompleteUnusableKeeps(w, h);
  }

  lemma ResultStepKeeps(w: World, h: int, e: Event) returns (h': int)
    requires ClientAt(w, h) && ResultEvent(e)
    ensures Keeps(w, h, Step(w, e), h')
  {
    var after := Step(w, e);
    match e
    case Decide(giveUp) => assert after == StepDecide(w, giveUp); h' := DecideKeeps(w, h, giveUp);
    case OpenResult(fileExists) =>
      assert after == StepOpenResult(w, fileExists);
      h' := OpenResultKeeps(w, h, fileExists);
    case ApplyPage(size, results) =>
      assert after == StepApplyPage(w, size, results);
      h' := PageKeeps(w, h, size, results);
    case FinishResult => assert after == StepFinish(w); h' := FinishKeeps(w, h);
  }

  lemma ServerStepKeeps(w: World, h: int, e: Event)
    requires ClientAt(w, h) && ServerEvent(e)
    ensures Keeps(w, h, Step(w, e), h)
  {
    assert Step(w, e) == w.(server := StepServer(w.server, e));
    ServerKeeps(w, h, e);
  }

  /** Every event keeps the client's part of the invariant, and every event that gives
      up no running import keeps the server's part too. */
  lemma StepKeeps(w: World, h: int, e: Event) returns (h': int)
    requires ClientAt(w, h)
    ensures ClientAt(Step(w, e), h')
    ensures ServerAt(w, h) && !GivesUpLive(w, e) ==> ServerAt(Step(w, e), h')
  {
    h' := h;
    if BatchEvent(e) {
      h' := BatchStepKeeps(w, h, e);
    } else if ServerEvent(e) {
      ServerStepKeeps(w, h, e);
    } else if ResultEvent(e) {
      h' := ResultStepKeeps(w, h, e);
    } else {
      h' := RequestStepKeeps(w, h, e);
    }
  }

  lemma FreshHolds(w: World)
    requires Fresh(w)
    ensures InvAt(w, -1)
  {
    WaitingIsPending(w.db.outbox);
    DistinctIsFunctional(EntriesOf(PendingOf(w.db.outbox)));
  }

  /** The tables and the program point fit together in every reachable state. */
  lemma {:induction false} ClientRunKeeps(start: World, events: seq<Event>) returns (h: int)
    requires Fresh(start)
    ensures ClientAt(Run(start, events), h)
  {
    if events == [] {
      FreshHolds(start);
      h := -1;
    } else {
      var n := |events| - 1;
      h := ClientRunKeeps(start, events[..n]);
      h := StepKeeps(Run(start, events[..n]), h, events[n]);
    }
  }

  lemma ShorterKeepsImports(start: World, events: seq<Event>, n: nat)
    requires KeepsImports(start, events) && n <= |events|
    ensures KeepsImports(start, events[..n])
  {
    forall i | 0 <= i < n ensures !GivesUpLive(Run(start, events[..n][..i]), events[..n][i]) {
      assert events[..n][..i] == events[..i];
    }
  }

  lemma {:induction false} RunKeeps(start: World, events: seq<Event>) returns (h: int)
    requires Fresh(start) && KeepsImports(start, events)
    ensures InvAt(Run(start, events), h)
  {
    if events == [] {
      FreshHolds(start);
      h := -1;
    } else {
      var n := |events| - 1;
      ShorterKeepsImports(start, events, n);
      h := RunKeeps(start, events[..n]);
      assert !GivesUpLive(Run(start, events[..n]), events[n]);
      h := StepKeeps(Run(start, events[..n]), h, events[n]);
    }
  }

  // ---------- what a run promises ----------

  lemma EqualLookups(a: Inventory, b: Inventory)
    requires forall item :: Lookup(a, item) == Lookup(b, item)
    ensures a == b
  {
    forall item ensures item in a <==> item in b { assert Lookup(a, item) == Lookup(b, item); }
    forall item | item in a ensures a[item] == b[item] { assert Lookup(a, item) == Lookup(b, item); }
  }

  /** Captured work is safe: at most one item is active, and all the batches it
      captured are pending. */
  lemma AtMostOneActive(start: World, events: seq<Event>)
    requires Fresh(start)
    ensures var w := Run(start, events);
            && (forall i, j :: 0 <= i < j < |w.db.bulks| ==>
                Terminal(w.db.bulks[i].state) || Terminal(w.db.bulks[j].state))
            && (forall item :: item in w.db.bulks && !Terminal(item.state) ==>
                  item.captured != [] && AllPending(w.db.outbox, item.captured))
  {
    var w := Run(start, events);
    var h := ClientRunKeeps(start, events);
    forall item | item in w.db.bulks && !Terminal(item.state)
      ensures item.captured != [] && AllPending(w.db.outbox, item.captured)
    {
      var i :| 0 <= i < |w.db.bulks| && w.db.bulks[i] == item;
      assert ItemOk(w.db, w.db.bulks[i]);
    }
  }

  /** No batch is prepared, sent or answered while an import runs. */
  ghost predicate NoRace(w: World) {
    w.pc == Flushing || w.pc == Sending || w.pc.Answered? ==> !AnyLive(w.server)
  }

  lemma SendingIsRaceFree(w: World, h: int)
    requires InvAt(w, h) && (w.pc == Flushing || w.pc == Sending || w.pc.Answered?)
    ensures !AnyLive(w.server)
  {
    assert h == -1;
    NothingLive(w, h);
  }

  lemma InvariantIsRaceFree(w: World, h: int)
    requires InvAt(w, h)
    ensures NoRace(w)
  {
    if w.pc == Flushing || w.pc == Sending || w.pc.Answered? { SendingIsRaceFree(w, h); }
  }

  /** Batch delivery never races a submitted import, for every transport choice and
      every crash point, unless an unusable answer gave up an import that runs. */
  lemma BatchesNeverRaceAnImport(start: World, events: seq<Event>)
    requires Fresh(start) && KeepsImports(start, events)
    ensures NoRace(Run(start, events))
  {
    var h := RunKeeps(start, events);
    InvariantIsRaceFree(Run(start, events), h);
  }

  /** An import that is not over is live once its upload is completed. */
  lemma CompletedIsLive(s: Server, i: nat)
    requires i < |s.imports| && !Over(s.imports[i].status)
    ensures AnyLive(CompleteUpload(s, i))
  {
    var after := CompleteUpload(s, i);
    assert i < |after.imports| && Live(after.imports[i].status);
  }

  lemma FallsBackToFlushing(w: World, b: nat, state: ImportStatus)
    requires FindBulk(w.db.bulks, b).Some? && state in {FailedPermanent, Cancelled, Expired}
    ensures FallBack(w, b, state).pc == Flushing && FallBack(w, b, state).server == w.server
  {
  }

  /** The guard is what an unusable answer costs: the engine is about to send batches,
      and an import is live. */
  lemma GivenUpIsLive(w: World, e: Event)
    requires GivesUpLive(w, e)
    ensures Step(w, e).pc == Flushing && AnyLive(Step(w, e).server)
  {
    var b := w.pc.bulk;
    var i := Bound(w, b).value;
    if e == StatusUnusable {
      var state := if w.pc.EscapeReading? then Cancelled else FailedPermanent;
      assert Step(w, e) == FallBack(w, b, state);
      FallsBackToFlushing(w, b, state);
      assert Live(w.server.imports[i].status);
    } else {
      var uploaded := w.(server := CompleteUpload(w.server, i));
      assert Step(w, e) == FallBack(uploaded, b, FailedPermanent);
      FallsBackToFlushing(uploaded, b, FailedPermanent);
      CompletedIsLive(w.server, i);
    }
  }

  /** From a state of the protocol, the guard decides for every event whether the next
      state has a race. */
  lemma StepRacesExactly(w: World, h: int, e: Event)
    requires InvAt(w, h)
    ensures NoRace(Step(w, e)) <==> !GivesUpLive(w, e)
  {
    if GivesUpLive(w, e) {
      GivenUpIsLive(w, e);
    } else {
      var h' := StepKeeps(w, h, e);
      InvariantIsRaceFree(Step(w, e), h');
    }
  }

  /** No state of a run has a race if and only if no unusable answer in it came while
      the import it was about was live, or was about to be queued. */
  lemma RacesExactly(start: World, events: seq<Event>)
    requires Fresh(start)
    ensures (forall n :: 0 <= n <= |events| ==> NoRace(Run(start, events[..n]))) <==> KeepsImports(start, events)
  {
    if KeepsImports(start, events) {
      forall n | 0 <= n <= |events| ensures NoRace(Run(start, events[..n])) {
        ShorterKeepsImports(start, events, n);
        BatchesNeverRaceAnImport(start, events[..n]);
      }
    } else {
      var i :| 0 <= i < |events| && GivesUpLive(Run(start, events[..i]), events[i]);
      RunNext(start, events, i);
      GivenUpIsLive(Run(start, events[..i]), events[i]);
      assert !NoRace(Run(start, events[..i + 1]));
    }
  }

  lemma RunNext(start: World, events: seq<Event>, i: nat)
    requires i < |events|
    ensures Run(start, events[..i + 1]) == Step(Run(start, events[..i]), events[i])
  {
    assert events[..i + 1][..i] == events[..i];
  }

  /** Giving up such an import leads straight to a batch request beside it. */
  lemma GivenUpImportRaces(w: World, e: Event)
    requires GivesUpLive(w, e)
    ensures var next := Step(Step(w, e), SplitBatches);
            next.pc == Sending && AnyLive(next.server)
  {
    GivenUpIsLive(w, e);
  }

  /** A scan is planned only when nothing is left to deliver. */
  lemma ScansStartDrained(start: World, events: seq<Event>)
    requires Fresh(start) && Run(start, events).pc == Scanning
    ensures PendingOf(Run(start, events).db.outbox) == []
  {
    var h := ClientRunKeeps(start, events);
  }
}
