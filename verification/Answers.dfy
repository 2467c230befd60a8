/** What the answer to a batch leaves behind, entry by entry: on the client, and on the
    client and the server together. */
module Answers {
  import opened Options
  import opened Manifest
  import opened Outbox
  import opened SyncProtocol

  // ---------- reading the results ----------

  /** The result of an item is the last one that names it, and no item is named "". */
  lemma {:induction false} ResultIsLast(results: seq<EntryResult>, item: string)
    ensures var r := ResultFor(results, item);
            && (r.Some? <==> item != "" && exists i :: 0 <= i < |results| && results[i].item == item)
            && (r.Some? ==>
                  exists i :: 0 <= i < |results| && results[i] == r.value && r.value.item == item
                              && forall j :: i < j < |results| ==> results[j].item != item)
  {
    if results != [] {
      var n := |results| - 1;
      ResultIsLast(results[..n], item);
      if results[n].item != item || item == "" {
        if i :| 0 <= i < |results| && results[i].item == item && i < n {
          assert results[..n][i].item == item;
        }
        if ResultFor(results[..n], item).Some? {
          var r := ResultFor(results[..n], item).value;
          var i :| 0 <= i < n && results[..n][i] == r && r.item == item
                   && forall j :: i < j < n ==> results[..n][j].item != item;
          assert results[i] == r && forall j :: i < j < n ==> results[..n][j] == results[j];
        }
      }
    }
  }

  // ---------- the client ----------

  /** The client may record the entry: the server took it, and wants no upload.  An
      ignored deletion counts when the deletions of the batch are reliable. */
  ghost predicate Taken(e: Entry, reliable: bool, results: seq<EntryResult>) {
    var r := ResultFor(results, e.item);
    && r.Some? && !r.value.uploadRequired
    && match e.operation
       case Upsert => r.value.outcome in {CreatedOccurrence, UpdatedOccurrence, DuplicateLinked, Unchanged}
       case Deleted => r.value.outcome == DeletedOccurrence || (reliable && r.value.outcome == IgnoredDeletion)
       case OtherOperation => r.value.outcome != Rejected
  }

  /** What the client knows of the entry's item after the answer. */
  ghost function KnownAfter(known: Inventory, e: Entry, reliable: bool, results: seq<EntryResult>): Option<Occurrence> {
    if !Taken(e, reliable, results) then Lookup(known, e.item)
    else match e.operation
      case Upsert => Some(Occurrence(e.revision, if e.locator != "" then e.locator else e.fileName))
      case Deleted => None
      case OtherOperation => Lookup(known, e.item)
  }

  /** The row of the batch: sent exactly when every entry is taken and no rejection is
      reported, and otherwise failed with the entries that are not. */
  ghost predicate RowAnswered(row: Batch, after: Batch, response: Response) {
    && after == row.(state := after.state, failures := after.failures)
    && (forall e :: e in after.failures <==> e in row.entries && !Taken(e, row.reliable, response.results))
    && after.state == (if (forall e :: e in row.entries ==> Taken(e, row.reliable, response.results))
                          && response.rejectedCount == 0 then Sent else Failed)
  }

  lemma TakenIsAccepted(e: Entry, reliable: bool, results: seq<EntryResult>)
    ensures Taken(e, reliable, results) <==> Accepts(e, reliable, ResultFor(results, e.item))
  {
  }

  /** Deliveries for other items, or of other operations, leave an item alone. */
  lemma {:induction false} UndeliveredItem(source: nat, s: Store, ds: seq<Delivery>, item: string)
    requires forall d :: d in ds && d.0.item == item ==> d.0.operation == OtherOperation
    ensures Lookup(DeliverAll(source, s, ds).known, item) == Lookup(s.known, item)
  {
    if ds != [] {
      var front, last := ds[..|ds| - 1], ds[|ds| - 1];
      assert ds == front + [last];
      UndeliveredItem(source, s, front, item);
      assert last in ds;
    }
  }

  /** The last delivery for an item decides. */
  lemma {:induction false} LastDelivery(source: nat, s: Store, ds: seq<Delivery>, d: Delivery)
    requires d in ds && d.0.operation != OtherOperation
    requires forall x :: x in ds && x.0.item == d.0.item ==> x == d
    ensures Lookup(DeliverAll(source, s, ds).known, d.0.item) == Effect(d.0)
  {
    var front, last := ds[..|ds| - 1], ds[|ds| - 1];
    assert ds == front + [last];
    if last != d {
      assert last in ds;
      LastDelivery(source, s, front, d);
    }
  }

  lemma DistinctMembers(entries: seq<Entry>, x: Entry, y: Entry)
    requires DistinctItems(entries) && x in entries && y in entries && x.item == y.item
    ensures x == y
  {
  }

  lemma AcknowledgedEntry(db: Db, b: Batch, response: Response, e: Entry)
    requires DistinctItems(b.entries) && e in b.entries
    ensures Lookup(Acknowledge(db, b, response).known, e.item) == KnownAfter(db.known, e, b.reliable, response.results)
  {
    var ds := Accepted(b.entries, b.reliable, response.results);
    AcceptedOrRefused(b.entries, b.reliable, response.results);
    TakenIsAccepted(e, b.reliable, response.results);
    forall d | d in ds && d.0.item == e.item ensures d.0 == e && ResultFor(response.results, e.item) == Some(d.1) {
      DistinctMembers(b.entries, d.0, e);
    }
    if Taken(e, b.reliable, response.results) && e.operation != OtherOperation {
      LastDelivery(db.source, StoreOf(db), ds, (e, ResultFor(response.results, e.item).value));
    } else {
      UndeliveredItem(db.source, StoreOf(db), ds, e.item);
    }
  }

  lemma AcknowledgedElsewhere(db: Db, b: Batch, response: Response, item: string)
    requires forall e :: e in b.entries ==> e.item != item
    ensures Lookup(Acknowledge(db, b, response).known, item) == Lookup(db.known, item)
  {
    AcceptedOrRefused(b.entries, b.reliable, response.results);
    UndeliveredItem(db.source, StoreOf(db), Accepted(b.entries, b.reliable, response.results), item);
  }

  lemma AnsweredRow(b: Batch, response: Response)
    ensures RowAnswered(b, b.(state := if Clean(b, response) then Sent else Failed,
                              failures := Refused(b.entries, b.reliable, response.results)), response)
  {
    var failures := Refused(b.entries, b.reliable, response.results);
    AcceptedOrRefused(b.entries, b.reliable, response.results);
    forall e ensures e in failures <==> e in b.entries && !Taken(e, b.reliable, response.results) {
      TakenIsAccepted(e, b.reliable, response.results);
    }
    if failures != [] { assert failures[0] in failures; }
  }

  /** Storing an answer, written out: each entry the client may record takes effect,
      nothing else changes what it knows, the row of the batch notes the rest, and the
      other rows and the bulk items stay. */
  lemma AnswerIsStored(db: Db, b: Batch, response: Response)
    requires UniqueRows(db.outbox, db.nextId) && b in db.outbox && DistinctItems(b.entries)
    ensures var after := Acknowledge(db, b, response);
            && (forall e :: e in b.entries ==>
                  Lookup(after.known, e.item) == KnownAfter(db.known, e, b.reliable, response.results))
            && (forall item :: (forall e :: e in b.entries ==> e.item != item) ==>
                  Lookup(after.known, item) == Lookup(db.known, item))
            && |after.outbox| == |db.outbox| && after.bulks == db.bulks
            && (forall i :: 0 <= i < |db.outbox| ==>
                  if db.outbox[i] == b then RowAnswered(b, after.outbox[i], response)
                  else after.outbox[i] == db.outbox[i])
  {
    var after := Acknowledge(db, b, response);
    forall e | e in b.entries
      ensures Lookup(after.known, e.item) == KnownAfter(db.known, e, b.reliable, response.results)
    {
      AcknowledgedEntry(db, b, response, e);
    }
    forall item | forall e :: e in b.entries ==> e.item != item
      ensures Lookup(after.known, item) == Lookup(db.known, item)
    {
      AcknowledgedElsewhere(db, b, response, item);
    }
    AnsweredRow(b, response);
    var at :| 0 <= at < |db.outbox| && db.outbox[at] == b;
  }

  // ---------- the server ----------

  /** What processing makes of the entry of an item no other entry names. */
  ghost predicate Served(occurrences: Inventory, e: Entry, reliable: bool, outcome: Outcome, after: Inventory) {
    match e.operation
    case Upsert =>
      if outcome == Rejected then Lookup(after, e.item) == Lookup(occurrences, e.item)
      else
        && Lookup(after, e.item) == Some(Occurrence(e.revision, if e.locator != "" then e.locator else e.fileName))
        && outcome in {CreatedOccurrence, UpdatedOccurrence, DuplicateLinked, Unchanged}
        && (outcome in {CreatedOccurrence, DuplicateLinked} <==> e.item !in occurrences)
        && (outcome == Unchanged <==> Lookup(after, e.item) == Lookup(occurrences, e.item))
    case Deleted =>
      if reliable && e.item in occurrences then outcome == DeletedOccurrence && e.item !in after
      else outcome == IgnoredDeletion && Lookup(after, e.item) == Lookup(occurrences, e.item)
    case OtherOperation => outcome == Rejected && Lookup(after, e.item) == Lookup(occurrences, e.item)
  }

  lemma {:induction false} ServedElsewhere(occurrences: Inventory, entries: seq<Entry>, reliable: bool, v: Verdict,
                                           item: string)
    requires forall e :: e in entries ==> e.item != item
    ensures Lookup(Process(occurrences, entries, reliable, v).0, item) == Lookup(occurrences, item)
  {
    if entries != [] {
      var n := |entries| - 1;
      ServedElsewhere(occurrences, entries[..n], reliable, v, item);
      assert entries[n] in entries;
    }
  }

  /** A batch of distinct items is served entry by entry, with one result for each. */
  lemma {:induction false} EachIsServed(occurrences: Inventory, entries: seq<Entry>, reliable: bool, v: Verdict,
                                        k: nat)
    requires DistinctItems(entries) && k < |entries|
    ensures var done := Process(occurrences, entries, reliable, v);
            && |done.1| == |entries| && done.1[k].item == entries[k].item && !done.1[k].uploadRequired
            && Served(occurrences, entries[k], reliable, done.1[k].outcome, done.0)
  {
    var n := |entries| - 1;
    var before, done := Process(occurrences, entries[..n], reliable, v), Process(occurrences, entries, reliable, v);
    if k < n {
      EachIsServed(occurrences, entries[..n], reliable, v, k);
      assert done.1[k] == before.1[k];
      StaysServed(occurrences, entries[k], reliable, done.1[k].outcome, before.0, done.0);
    } else {
      ResultsCount(occurrences, entries[..n], reliable, v);
      NotRepeated(entries);
      ServedElsewhere(occurrences, entries[..n], reliable, v, entries[n].item);
      LastIsServed(before.0, entries[..n], entries[n], reliable, v);
      AlikeServed(before.0, occurrences, entries[n], reliable, done.1[n].outcome, done.0);
    }
  }

  lemma NotRepeated(entries: seq<Entry>)
    requires DistinctItems(entries) && entries != []
    ensures var n := |entries| - 1;
            !Repeats(entries[..n], entries[n]) && forall e :: e in entries[..n] ==> e.item != entries[n].item
  {
    var n := |entries| - 1;
    forall e | e in entries[..n] ensures e.item != entries[n].item {
      var i :| 0 <= i < n && entries[..n][i] == e;
    }
  }

  lemma StaysServed(occurrences: Inventory, e: Entry, reliable: bool, outcome: Outcome, before: Inventory,
                    after: Inventory)
    requires Served(occurrences, e, reliable, outcome, before) && Lookup(after, e.item) == Lookup(before, e.item)
    ensures Served(occurrences, e, reliable, outcome, after)
  {
  }

  lemma AlikeServed(occurrences: Inventory, alike: Inventory, e: Entry, reliable: bool, outcome: Outcome,
                    after: Inventory)
    requires Served(occurrences, e, reliable, outcome, after) && Lookup(alike, e.item) == Lookup(occurrences, e.item)
    ensures Served(alike, e, reliable, outcome, after)
  {
  }

  lemma {:induction false} ResultsCount(occurrences: Inventory, entries: seq<Entry>, reliable: bool, v: Verdict)
    ensures |Process(occurrences, entries, reliable, v).1| == |entries|
  {
    if entries != [] { ResultsCount(occurrences, entries[..|entries| - 1], reliable, v); }
  }

  lemma LastIsServed(occurrences: Inventory, seen: seq<Entry>, e: Entry, reliable: bool, v: Verdict)
    requires !Repeats(seen, e)
    ensures var outcome := Judge(occurrences, seen, e, reliable, v);
            Served(occurrences, e, reliable, outcome, Perform(occurrences, e, outcome))
  {
  }

  // ---------- both ----------

  /** The results of the processing, by item. */
  lemma OwnResult(occurrences: Inventory, entries: seq<Entry>, reliable: bool, v: Verdict, k: nat)
    requires DistinctItems(entries) && k < |entries| && entries[k].item != ""
    ensures var done := Process(occurrences, entries, reliable, v);
            |done.1| == |entries| && ResultFor(done.1, entries[k].item) == Some(done.1[k])
  {
    var done := Process(occurrences, entries, reliable, v);
    var item := entries[k].item;
    forall j | 0 <= j < |entries| ensures |done.1| == |entries| && done.1[j].item == entries[j].item {
      EachIsServed(occurrences, entries, reliable, v, j);
    }
    ResultIsLast(done.1, item);
    assert done.1[k].item == item;
    var i :| 0 <= i < |done.1| && done.1[i] == ResultFor(done.1, item).value && done.1[i].item == item;
  }

  lemma StepEntry(db: Db, b: Batch, occurrences: Inventory, v: Verdict, k: nat)
    requires DistinctItems(b.entries) && k < |b.entries| && b.entries[k].item != "" && b.reliable
    ensures var done := Process(occurrences, b.entries, true, v);
            var response := Response(done.1, RejectedCount(done.1));
            && |done.1| == |b.entries|
            && (done.1[k].outcome != Rejected <==> Taken(b.entries[k], true, done.1))
            && (done.1[k].outcome != Rejected ==>
                  Lookup(Acknowledge(db, b, response).known, b.entries[k].item) == Lookup(done.0, b.entries[k].item))
  {
    var done := Process(occurrences, b.entries, true, v);
    OwnResult(occurrences, b.entries, true, v, k);
    EachIsServed(occurrences, b.entries, true, v, k);
    AcknowledgedEntry(db, b, Response(done.1, RejectedCount(done.1)), b.entries[k]);
  }

  lemma {:induction false} NoneRejected(results: seq<EntryResult>)
    ensures RejectedCount(results) == 0 <==> forall k :: 0 <= k < |results| ==> results[k].outcome != Rejected
  {
    if results != [] {
      var n := |results| - 1;
      NoneRejected(results[..n]);
      if RejectedCount(results) == 0 {
        forall k | 0 <= k < |results| ensures results[k].outcome != Rejected {
          assert k < n ==> results[..n][k] == results[k];
        }
      } else if forall k :: 0 <= k < |results| ==> results[k].outcome != Rejected {
        forall k | 0 <= k < n ensures results[..n][k].outcome != Rejected { assert results[..n][k] == results[k]; }
      }
    }
  }

  /** When the server processes a reliable batch and its answer is stored, client and
      server agree at every item the server did not reject, whatever each held before,
      and the batch is sent exactly when it rejected none. */
  lemma AnsweredInStep(db: Db, b: Batch, occurrences: Inventory, v: Verdict)
    requires UniqueRows(db.outbox, db.nextId) && b in db.outbox && b.reliable
    requires DistinctItems(b.entries) && forall e :: e in b.entries ==> e.item != ""
    ensures var done := Process(occurrences, b.entries, true, v);
            var after := Acknowledge(db, b, Response(done.1, RejectedCount(done.1)));
            && |done.1| == |b.entries| && |after.outbox| == |db.outbox|
            && (forall k :: 0 <= k < |b.entries| && done.1[k].outcome != Rejected ==>
                  Lookup(after.known, b.entries[k].item) == Lookup(done.0, b.entries[k].item))
            && (forall i :: 0 <= i < |db.outbox| && db.outbox[i] == b ==>
                  (after.outbox[i].state == Sent
                   <==> forall k :: 0 <= k < |b.entries| ==> done.1[k].outcome != Rejected))
  {
    var done := Process(occurrences, b.entries, true, v);
    var response := Response(done.1, RejectedCount(done.1));
    var after := Acknowledge(db, b, response);
    ResultsCount(occurrences, b.entries, true, v);
    forall k | 0 <= k < |b.entries|
      ensures done.1[k].outcome != Rejected <==> Taken(b.entries[k], true, done.1)
      ensures done.1[k].outcome != Rejected ==>
                Lookup(after.known, b.entries[k].item) == Lookup(done.0, b.entries[k].item)
    {
      assert b.entries[k] in b.entries;
      StepEntry(db, b, occurrences, v, k);
    }
    AnswerIsStored(db, b, response);
    NoneRejected(done.1);
    SentWhenTaken(b, done.1);
  }

  lemma SentWhenTaken(b: Batch, results: seq<EntryResult>)
    requires |results| == |b.entries|
    requires forall k :: 0 <= k < |b.entries| ==>
               (results[k].outcome != Rejected <==> Taken(b.entries[k], b.reliable, results))
    ensures (forall e :: e in b.entries ==> Taken(e, b.reliable, results))
       <==> forall k :: 0 <= k < |results| ==> results[k].outcome != Rejected
  {
    if forall e :: e in b.entries ==> Taken(e, b.reliable, results) {
      forall k | 0 <= k < |results| ensures results[k].outcome != Rejected { assert b.entries[k] in b.entries; }
    }
  }
}
