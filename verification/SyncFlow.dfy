/** Which way the engine goes: which transport a delivery takes, and what a process that
    only sends batches does about an import that was submitted before. */
module SyncFlow {
  import opened Options
  import opened Manifest
  import opened Outbox
  import opened Planning
  import opened SyncProtocol
  import opened SyncInvariant
  import opened SyncSteps
  import opened SyncTables
  import opened SyncClient
  import opened SyncTheorems
  import opened SyncImport
  import OutboxLaws

  // ---------- capturing some of the pending batches ----------

  lemma {:induction false} PendingMembersOnly(outbox: seq<Batch>, ids: set<nat>)
    ensures Members(outbox, ids) == Members(PendingOf(outbox), ids)
  {
    if outbox != [] {
      var front, last := outbox[..|outbox| - 1], outbox[|outbox| - 1];
      PendingMembersOnly(front, ids);
      if last.state == Pending {
        assert PendingOf(outbox) == PendingOf(front) + [last];
        assert (PendingOf(front) + [last])[..|PendingOf(front)|] == PendingOf(front);
      } else {
        assert PendingOf(outbox) == PendingOf(front) && Members(front, ids) + [] == Members(front, ids);
      }
    }
  }

  lemma {:induction false} PrefixMembers(batches: seq<Batch>, n: nat)
    requires n <= |batches| && DistinctIds(IdList(batches)) && forall b :: b in batches ==> b.state == Pending
    ensures Members(batches, SetOf(IdList(batches[..n]))) == batches[..n]
  {
    if n == |batches| {
      assert batches[..n] == batches;
      AllOfThem(batches);
    } else {
      var front, last := batches[..|batches| - 1], batches[|batches| - 1];
      assert batches == front + [last] && front[..n] == batches[..n];
      assert IdList(batches)[..|batches| - 1] == IdList(front);
      PrefixMembers(front, n);
      assert last.id !in SetOf(IdList(batches[..n])) by {
        forall k | 0 <= k < n ensures IdList(batches[..n])[k] != last.id {
          assert IdList(batches)[k] != IdList(batches)[|batches| - 1];
        }
      }
    }
  }

  lemma {:induction false} AllIn(batches: seq<Batch>, ids: set<nat>)
    requires forall b :: b in batches ==> b.state == Pending && b.id in ids
    ensures Members(batches, ids) == batches
  {
    if batches != [] {
      var front, last := batches[..|batches| - 1], batches[|batches| - 1];
      assert batches == front + [last];
      AllIn(front, ids);
    }
  }

  lemma AllOfThem(batches: seq<Batch>)
    requires forall b :: b in batches ==> b.state == Pending
    ensures Members(batches, SetOf(IdList(batches))) == batches
  {
    forall b | b in batches ensures b.id in SetOf(IdList(batches)) {
      var k :| 0 <= k < |batches| && batches[k] == b;
      assert IdList(batches)[k] == b.id;
    }
    AllIn(batches, SetOf(IdList(batches)));
  }

  lemma SameIds(batches: seq<Batch>)
    ensures IdsOf(batches) == SetOf(IdList(batches))
  {
    forall b | b in batches ensures b.id in SetOf(IdList(batches)) {
      var k :| 0 <= k < |batches| && batches[k] == b;
      assert IdList(batches)[k] == b.id;
    }
    forall id | id in SetOf(IdList(batches)) ensures id in IdsOf(batches) {
      var k :| 0 <= k < |batches| && IdList(batches)[k] == id;
      assert batches[k] in batches;
    }
  }

  /** The first pending batches are captured as they are. */
  lemma CapturesPrefix(db: Db, selected: seq<Batch>)
    requires UniqueRows(db.outbox, db.nextId) && selected <= PendingOf(db.outbox)
    ensures var ids := IdList(selected);
            && Dedup(ids) == ids && Members(db.outbox, SetOf(ids)) == selected && IdsOf(selected) == SetOf(ids)
  {
    var pending, n := PendingOf(db.outbox), |selected|;
    PendingIds(db.outbox, db.nextId);
    PendingMembers(db.outbox);
    assert selected == pending[..n];
    forall i, j | 0 <= i < j < n ensures IdList(selected)[i] != IdList(selected)[j] {
      assert IdList(pending)[i] != IdList(pending)[j];
    }
    DedupDistinct(IdList(selected));
    PendingMembersOnly(db.outbox, SetOf(IdList(selected)));
    PrefixMembers(pending, n);
    SameIds(selected);
  }

  // ---------- choosing a transport ----------

  /** Enough is waiting for an import to be worth it, and an import can take it. */
  ghost predicate TakesImport(e: Event)
    requires e.Choose?
  {
    var entries := EntriesOf(e.selected);
    && e.transport != BatchOnly
    && (e.transport == Auto ==> |e.selected| >= 10 || |entries| >= 1000)
    && entries != [] && e.artifact.bytes > 0
    && forall x :: x in entries ==> x.operation == Upsert && IsSha256(x.contentHash)
  }

  /** With nothing active and work waiting, an import is started, with exactly the
      selected batches, or batches are sent. */
  ghost predicate StartsRight(w: World, e: Event, after: World)
    requires e.Choose?
  {
    if TakesImport(e) then
      && after.pc.Resuming? && after.server == w.server && after.db.outbox == w.db.outbox
      && |after.db.bulks| == |w.db.bulks| + 1
      && var item := after.db.bulks[|w.db.bulks|];
         && after.pc.bulk == item.id && item.captured == IdList(e.selected) && item.state == Prepared
         && item.artifact.entryCount == |EntriesOf(e.selected)| && item.appliedThrough == 0
    else after == w.(pc := Flushing)
  }

  /** With an item active it is resumed, or a process that only sends batches asks for
      its status first, or cancels it when it was never submitted. */
  ghost predicate ResumesRight(w: World, e: Event, after: World, h: int)
    requires e.Choose? && 0 <= h < |w.db.bulks|
  {
    var item := w.db.bulks[h];
    if e.transport != BatchOnly then after == w.(pc := Resuming(item.id))
    else if item.serverImport.Some? then after == w.(pc := EscapeReading(item.id))
    else
      && after.pc == Flushing && after.server == w.server && after.db.outbox == w.db.outbox
      && |after.db.bulks| == |w.db.bulks| && after.db.bulks[h].state == At(Cancelled)
  }

  lemma NewImport(w: World, e: Event)
    requires ClientAt(w, -1) && w.pc == Delivering && e.Choose? && e.selected <= PendingOf(w.db.outbox)
    requires ActiveBulk(w.db.bulks).None? && PendingOf(w.db.outbox) != []
    ensures StartsRight(w, e, StepChoose(w, e))
  {
    var artifact := e.artifact.(entryCount := |EntriesOf(e.selected)|);
    CapturesPrefix(w.db, e.selected);
    FreshSnapshot(w.db);
    if TakesImport(e) {
      QueuesPrefix(w.db, IdList(e.selected), EntriesOf(e.selected), artifact);
      QueueBulkParts(w.db, artifact, e.selected);
    } else if e.artifact.bytes == 0 {
      NothingQueues(w.db, IdList(e.selected), artifact);
    }
  }

  lemma QueuesPrefix(db: Db, ids: seq<nat>, entries: seq<Entry>, artifact: Artifact)
    requires ActiveBulk(db.bulks).None? && FindSnapshot(db.bulks, db.nextId).None? && ids == Dedup(ids)
    requires entries == EntriesOf(Members(db.outbox, SetOf(ids))) && IdsOf(Members(db.outbox, SetOf(ids))) == SetOf(ids)
    requires forall x :: x in entries ==> HashedUpsert(x)
    requires artifact.bytes > 0 && artifact.entryCount == |entries| > 0
    ensures QueueBulk(db.(nextId := db.nextId + 1), db.nextId, artifact, ids).Success?
  {
  }

  lemma NothingQueues(db: Db, ids: seq<nat>, artifact: Artifact)
    requires artifact.bytes == 0
    ensures QueueBulk(db.(nextId := db.nextId + 1), db.nextId, artifact, ids).Failure?
  {
  }

  /** The transport of a delivery, in every run: an active import is resumed or escaped
      from; otherwise an import is started exactly for hashed upserts, when bulk is asked
      for, or when at least ten batches or a thousand rows wait. */
  lemma TransportIsChosenExactly(start: World, events: seq<Event>, e: Event) returns (h: int)
    requires Fresh(start) && Run(start, events).pc == Delivering && e.Choose?
    requires IsBoundedPrefix(PendingOf(Run(start, events).db.outbox), e.maximumRows, e.selected)
    ensures var w, after := Run(start, events), Step(Run(start, events), e);
            if exists item :: item in w.db.bulks && !Terminal(item.state) then
              0 <= h < |w.db.bulks| && !Terminal(w.db.bulks[h].state) && ResumesRight(w, e, after, h)
            else if PendingOf(w.db.outbox) == [] then after == w.(pc := Scanning)
            else StartsRight(w, e, after)
  {
    var w := Run(start, events);
    h := ClientRunKeeps(start, events);
    assert Step(w, e) == StepChoose(w, e);
    if ActiveBulk(w.db.bulks).Some? {
      ActiveIsHot(w.db, h);
      HeldItem(w, h, w.db.bulks[h].id);
      FallBackParts(w, h, w.db.bulks[h].id, Cancelled);
    } else {
      NothingActive(w, h);
      if PendingOf(w.db.outbox) != [] { NewImport(w, e); }
    }
  }

  // ---------- escaping from an import, and polling one ----------

  /** The engine gives the item up, and goes on to send its batches. */
  ghost predicate GaveUp(w: World, after: World, b: nat, status: ImportStatus) {
    && after.pc == Flushing && after.server == w.server && after.db.outbox == w.db.outbox
    && exists h :: Holds(w, h, b) && Holds(after, h, b) && after.db.bulks[h].state == At(status)
  }

  lemma FallBackGivesUp(w: World, h: int, b: nat, status: ImportStatus)
    requires TablesOk(w.db) && Holds(w, h, b) && status in {Cancelled, FailedPermanent}
    ensures GaveUp(w, FallBack(w, b, status), b, status)
  {
    HeldItem(w, h, b);
    FallBackParts(w, h, b, status);
    assert Holds(FallBack(w, b, status), h, b);
  }

  lemma EscapeDecides(w: World, h: int, giveUp: bool)
    requires ClientAt(w, h) && w.pc.EscapeDeciding?
    ensures var after := StepDecide(w, giveUp);
            if w.pc.status == AwaitingUpload then GaveUp(w, after, w.pc.bulk, Cancelled)
            else if w.pc.status in {Queued, Running, RetryDue} then after == w.(pc := Idle)
            else after == w.(pc := Resuming(w.pc.bulk))
  {
    if w.pc.status == AwaitingUpload { FallBackGivesUp(w, h, w.pc.bulk, Cancelled); }
  }

  lemma PollDecides(w: World, h: int, giveUp: bool)
    requires ClientAt(w, h) && w.pc.Polling?
    ensures var after := StepDecide(w, giveUp);
            if w.pc.status == RetryDue then after == w.(pc := Idle)
            else if w.pc.status in {AwaitingUpload, Queued, Running} then after == w
            else if w.pc.status == Succeeded && !giveUp then after == w.(pc := OpeningResult(w.pc.bulk))
            else GaveUp(w, after, w.pc.bulk, FailedPermanent)
  {
    StatusCases(w.pc.status);
    if Over(w.pc.status) { FallBackGivesUp(w, h, w.pc.bulk, FailedPermanent); }
  }

  /** What a process does about the status of an import, once it is stored: one that
      runs is waited for, one that was not submitted is cancelled, and one that is over
      is taken up again by a process that only sends batches; a process that imports
      opens the result of a success it keeps, and gives up any other end. */
  lemma StatusIsDecidedExactly(start: World, events: seq<Event>, giveUp: bool)
    requires Fresh(start) && (Run(start, events).pc.EscapeDeciding? || Run(start, events).pc.Polling?)
    ensures var w, after := Run(start, events), Step(Run(start, events), Decide(giveUp));
            var b, status, escapes := w.pc.bulk, w.pc.status, w.pc.EscapeDeciding?;
            if status == RetryDue || (escapes && status in {Queued, Running}) then after == w.(pc := Idle)
            else if escapes && status == AwaitingUpload then GaveUp(w, after, b, Cancelled)
            else if escapes then after == w.(pc := Resuming(b))
            else if status in {AwaitingUpload, Queued, Running} then after == w
            else if status == Succeeded && !giveUp then after == w.(pc := OpeningResult(b))
            else GaveUp(w, after, b, FailedPermanent)
  {
    var w := Run(start, events);
    var h := ClientRunKeeps(start, events);
    assert Step(w, Decide(giveUp)) == StepDecide(w, giveUp);
    if w.pc.EscapeDeciding? { EscapeDecides(w, h, giveUp); } else { PollDecides(w, h, giveUp); }
  }

  lemma StatusCases(status: ImportStatus)
    ensures Over(status) || status in {AwaitingUpload, Queued, Running, RetryDue}
  {
    match status {
      case AwaitingUpload =>
      case _ =>
    }
  }
}
