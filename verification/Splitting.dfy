/** Splitting oversized pending batches conserves the pending work. */
module Splitting {
  import opened Manifest
  import opened Outbox
  import Permutations

  /** The pending rows a split leaves alone. */
  function Small(outbox: seq<Batch>, size: nat): seq<Batch> {
    if outbox == [] then []
    else
      var last := outbox[|outbox| - 1];
      Small(outbox[..|outbox| - 1], size)
      + if last.state == Pending && !IsOversized(last, size) then [last] else []
  }

  lemma EntriesLast(bs: seq<Batch>, b: Batch)
    ensures EntriesOf(bs + [b]) == EntriesOf(bs) + b.entries
  {
    assert (bs + [b])[..|bs|] == bs && (bs + [b])[|bs|] == b;
  }

  lemma {:induction false} EntriesConcat(a: seq<Batch>, b: seq<Batch>)
    ensures EntriesOf(a + b) == EntriesOf(a) + EntriesOf(b)
  {
    if b == [] {
      assert a + b == a;
    } else {
      var front, last := b[..|b| - 1], b[|b| - 1];
      EntriesConcat(a, front);
      EntriesLast(a + front, last);
      EntriesLast(front, last);
      Permutations.Associative(EntriesOf(a), EntriesOf(front), last.entries);
      Permutations.Peeled(a, b);
    }
  }

  lemma {:induction false} PendingConcat(a: seq<Batch>, b: seq<Batch>)
    ensures PendingOf(a + b) == PendingOf(a) + PendingOf(b)
  {
    if b == [] {
      assert a + b == a;
    } else {
      PendingConcat(a, b[..|b| - 1]);
      assert (a + b)[..|a + b| - 1] == a + b[..|b| - 1];
    }
  }

  lemma {:induction false} AllPending(bs: seq<Batch>)
    requires forall i :: 0 <= i < |bs| ==> bs[i].state == Pending
    ensures PendingOf(bs) == bs
  {
    if bs != [] {
      AllPending(bs[..|bs| - 1]);
      assert bs == bs[..|bs| - 1] + [bs[|bs| - 1]];
    }
  }

  /** New pending rows behind a table without any are exactly what is pending. */
  lemma PendingAppended(outbox: seq<Batch>, rows: seq<Batch>)
    requires PendingOf(outbox) == [] && forall i :: 0 <= i < |rows| ==> rows[i].state == Pending
    ensures PendingOf(outbox + rows) == rows
  {
    PendingConcat(outbox, rows);
    AllPending(rows);
  }

  /** Discarding exactly the oversized rows leaves the small ones pending. */
  lemma {:induction false} DiscardLeavesSmall(outbox: seq<Batch>, ids: set<nat>, size: nat)
    requires forall b :: b in outbox && b.state == Pending ==> (b.id in ids <==> IsOversized(b, size))
    ensures PendingOf(DiscardPending(outbox, ids)) == Small(outbox, size)
  {
    if outbox != [] {
      var front := outbox[..|outbox| - 1];
      DiscardLeavesSmall(front, ids, size);
      assert DiscardPending(outbox, ids)[..|outbox| - 1] == DiscardPending(front, ids);
    }
  }

  lemma PartitionLast(front: seq<Batch>, last: Batch, size: nat)
    ensures PendingOf(front + [last]) == if last.state == Pending then PendingOf(front) + [last] else PendingOf(front)
    ensures Oversized(front + [last], size)
            == if IsOversized(last, size) then Oversized(front, size) + [last] else Oversized(front, size)
    ensures Small(front + [last], size)
         == if last.state == Pending && !IsOversized(last, size) then Small(front, size) + [last]
            else Small(front, size)
  {
    assert (front + [last])[..|front|] == front && (front + [last])[|front|] == last;
  }

  lemma {:induction false} PendingPartition(outbox: seq<Batch>, size: nat)
    ensures multiset(EntriesOf(PendingOf(outbox)))
         == multiset(EntriesOf(Small(outbox, size))) + multiset(EntriesOf(Oversized(outbox, size)))
  {
    if outbox != [] {
      var front, last := outbox[..|outbox| - 1], outbox[|outbox| - 1];
      assert outbox == front + [last];
      PendingPartition(front, size);
      PartitionLast(front, last, size);
      if last.state == Pending {
        EntriesSnoc(PendingOf(front), last);
        EntriesSnoc(Oversized(front, size), last);
        EntriesSnoc(Small(front, size), last);
      }
    }
  }

  lemma EntriesSnoc(bs: seq<Batch>, b: Batch)
    ensures multiset(EntriesOf(bs + [b])) == multiset(EntriesOf(bs)) + multiset(b.entries)
  {
    EntriesLast(bs, b);
  }

  function Flatten<T>(cs: seq<seq<T>>): seq<T> {
    if cs == [] then [] else cs[0] + Flatten(cs[1..])
  }

  lemma FlattenFirst<T>(c: seq<T>, cs: seq<seq<T>>)
    ensures Flatten([c] + cs) == c + Flatten(cs)
  {
    assert ([c] + cs)[1..] == cs;
  }

  lemma {:induction false} ChunksFlatten<T>(items: seq<T>, size: nat)
    requires size > 0
    ensures Flatten(Chunks(items, size)) == items
    decreases |items|
  {
    if items == [] {
    } else if |items| <= size {
      FlattenFirst(items, []);
      assert [items] + [] == [items] && items + [] == items;
    } else {
      ChunksFlatten(items[size..], size);
      FlattenFirst(items[..size], Chunks(items[size..], size));
    }
  }

  lemma ChunksStep<T>(items: seq<T>, size: nat, taken: seq<T>, rest: seq<T>)
    requires size > 0 && items != []
    requires taken == items[..if |items| <= size then |items| else size] && items == taken + rest
    ensures Chunks(items, size) == [taken] + Chunks(rest, size)
  {
    if |items| <= size {
      assert taken == items && rest == [];
      assert [items] + [] == [items];
    } else {
      assert items[size..] == rest;
    }
  }

  lemma PayloadsOf(reliable: bool, c: seq<Entry>, cs: seq<seq<Entry>>)
    ensures seq(|[c] + cs|, i requires 0 <= i < |[c] + cs| => Payload(reliable, ([c] + cs)[i]))
         == [Payload(reliable, c)] + seq(|cs|, i requires 0 <= i < |cs| => Payload(reliable, cs[i]))
  {
  }

  lemma ChunkPayloadsStep(reliable: bool, entries: seq<Entry>, start: nat, end: nat, size: nat)
    requires size > 0 && start < |entries|
    requires end == if start + size <= |entries| then start + size else |entries|
    ensures ChunkPayloads(reliable, entries[start..], size)
         == [Payload(reliable, entries[start..end])] + ChunkPayloads(reliable, entries[end..], size)
  {
    var rest := entries[start..];
    assert rest[..end - start] == entries[start..end];
    assert rest == entries[start..end] + entries[end..];
    ChunksStep(rest, size, entries[start..end], entries[end..]);
    PayloadsOf(reliable, entries[start..end], Chunks(entries[end..], size));
  }

  lemma {:induction false} RowsOfChunks(scan: nat, firstId: nat, reliable: bool, cs: seq<seq<Entry>>)
    ensures EntriesOf(NewBatches(scan, firstId, seq(|cs|, i requires 0 <= i < |cs| => Payload(reliable, cs[i]))))
            == Flatten(cs)
    decreases |cs|
  {
    if cs != [] {
      var front := cs[..|cs| - 1];
      RowsOfChunks(scan, firstId, reliable, front);
      var rows := NewBatches(scan, firstId, seq(|cs|, i requires 0 <= i < |cs| => Payload(reliable, cs[i])));
      assert rows[..|cs| - 1] == NewBatches(scan, firstId,
             seq(|front|, i requires 0 <= i < |front| => Payload(reliable, front[i])));
      FlattenSnoc(front, cs[|cs| - 1]);
      assert cs == front + [cs[|cs| - 1]];
    }
  }

  /** Cutting entries into payloads and queueing them loses and reorders nothing. */
  lemma RowsOfPayloads(scan: nat, firstId: nat, reliable: bool, entries: seq<Entry>, size: nat)
    requires size > 0
    ensures EntriesOf(NewBatches(scan, firstId, ChunkPayloads(reliable, entries, size))) == entries
  {
    RowsOfChunks(scan, firstId, reliable, Chunks(entries, size));
    ChunksFlatten(entries, size);
  }

  lemma {:induction false} FlattenSnoc<T>(cs: seq<seq<T>>, c: seq<T>)
    ensures Flatten(cs + [c]) == Flatten(cs) + c
  {
    if cs == [] {
      assert cs + [c] == [c] && [c][1..] == [];
    } else {
      FlattenSnoc(cs[1..], c);
      assert (cs + [c])[1..] == cs[1..] + [c];
    }
  }

  function PayloadEntries(ps: seq<Payload>): seq<Entry> {
    if ps == [] then [] else PayloadEntries(ps[..|ps| - 1]) + ps[|ps| - 1].entries
  }

  lemma NewBatchesSnoc(scan: nat, firstId: nat, front: seq<Payload>, last: Payload)
    ensures NewBatches(scan, firstId, front + [last])
         == NewBatches(scan, firstId, front)
            + [Batch(firstId + |front|, BatchKey(scan, |front|), last.reliable, last.entries, Pending, [])]
  {
  }

  /** The entries of new rows do not depend on their identifiers. */
  lemma {:induction false} NewRowEntries(scan: nat, firstId: nat, ps: seq<Payload>)
    ensures EntriesOf(NewBatches(scan, firstId, ps)) == PayloadEntries(ps)
    decreases |ps|
  {
    if ps != [] {
      var front, last := ps[..|ps| - 1], ps[|ps| - 1];
      NewRowEntries(scan, firstId, front);
      assert ps == front + [last];
      NewBatchesSnoc(scan, firstId, front, last);
      EntriesLast(NewBatches(scan, firstId, front),
                  Batch(firstId + |front|, BatchKey(scan, |front|), last.reliable, last.entries, Pending, []));
    }
  }

  lemma PayloadEntriesLast(ps: seq<Payload>, p: Payload)
    ensures PayloadEntries(ps + [p]) == PayloadEntries(ps) + p.entries
  {
    assert (ps + [p])[..|ps|] == ps && (ps + [p])[|ps|] == p;
  }

  lemma {:induction false} PayloadEntriesConcat(a: seq<Payload>, b: seq<Payload>)
    ensures PayloadEntries(a + b) == PayloadEntries(a) + PayloadEntries(b)
  {
    if b == [] {
      assert a + b == a;
    } else {
      var front, last := b[..|b| - 1], b[|b| - 1];
      PayloadEntriesConcat(a, front);
      PayloadEntriesLast(a + front, last);
      PayloadEntriesLast(front, last);
      Permutations.Associative(PayloadEntries(a), PayloadEntries(front), last.entries);
      Permutations.Peeled(a, b);
    }
  }

  lemma {:induction false} PiecesSize(oversized: seq<Batch>, size: nat, i: nat)
    requires size > 0 && i < |Pieces(oversized, size)|
    ensures 1 <= |Pieces(oversized, size)[i].entries| <= size
  {
    var front, last := oversized[..|oversized| - 1], oversized[|oversized| - 1];
    if i < |Pieces(front, size)| {
      PiecesSize(front, size, i);
    } else {
      assert Chunks(last.entries, size)[i - |Pieces(front, size)|] in Chunks(last.entries, size);
    }
  }

  /** The replacements concatenate to the oversized batches' entries, in order. */
  lemma {:induction false} PiecesConcatenate(oversized: seq<Batch>, size: nat, scan: nat, firstId: nat)
    requires size > 0
    ensures EntriesOf(NewBatches(scan, firstId, Pieces(oversized, size))) == EntriesOf(oversized)
  {
    if oversized != [] {
      var front, last := oversized[..|oversized| - 1], oversized[|oversized| - 1];
      var before, added := Pieces(front, size), ChunkPayloads(last.reliable, last.entries, size);
      PiecesConcatenate(front, size, scan, firstId);
      RowsOfPayloads(scan, firstId, last.reliable, last.entries, size);
      NewRowEntries(scan, firstId, before);
      NewRowEntries(scan, firstId, added);
      NewRowEntries(scan, firstId, before + added);
      PayloadEntriesConcat(before, added);
    }
  }

  lemma {:induction false} SmallIsSmall(outbox: seq<Batch>, size: nat)
    ensures forall b :: b in Small(outbox, size) <==> b in outbox && b.state == Pending && !IsOversized(b, size)
  {
    if outbox != [] {
      SmallIsSmall(outbox[..|outbox| - 1], size);
      assert outbox == outbox[..|outbox| - 1] + [outbox[|outbox| - 1]];
    }
  }

  lemma OversizedIds(outbox: seq<Batch>, size: nat, nextId: nat)
    requires UniqueRows(outbox, nextId)
    ensures forall b :: b in outbox && b.state == Pending ==>
            (b.id in IdsOf(Oversized(outbox, size)) <==> IsOversized(b, size))
  {
    OversizedMembers(outbox, size);
    forall b | b in outbox && b.state == Pending && b.id in IdsOf(Oversized(outbox, size))
      ensures IsOversized(b, size)
    {
      var o :| o in Oversized(outbox, size) && o.id == b.id;
    }
  }

  /** The pending rows after a split: the small ones, then the pieces. */
  lemma PendingAfterSplit(db: Db, size: nat)
    requires size > 0 && UniqueRows(db.outbox, db.nextId)
    requires Oversized(db.outbox, size) != []
    ensures PendingOf(Split(db, size).outbox)
         == Small(db.outbox, size) + NewBatches(db.nextId, db.nextId + 1, Pieces(Oversized(db.outbox, size), size))
  {
    var oversized := Oversized(db.outbox, size);
    var rows := NewBatches(db.nextId, db.nextId + 1, Pieces(oversized, size));
    OversizedIds(db.outbox, size, db.nextId);
    DiscardLeavesSmall(db.outbox, IdsOf(oversized), size);
    PendingConcat(DiscardPending(db.outbox, IdsOf(oversized)), rows);
    AllPending(rows);
  }

  /** Without an oversized row every pending row is small. */
  lemma {:induction false} NothingOversized(outbox: seq<Batch>, size: nat)
    requires Oversized(outbox, size) == []
    ensures Small(outbox, size) == PendingOf(outbox)
  {
    if outbox != [] {
      NothingOversized(outbox[..|outbox| - 1], size);
    }
  }

  /** An existing row is discarded if it is oversized, and otherwise untouched. */
  lemma SplitOldRow(db: Db, size: nat, i: nat)
    requires size > 0 && UniqueRows(db.outbox, db.nextId) && i < |db.outbox|
    ensures |Split(db, size).outbox| >= |db.outbox|
    ensures Split(db, size).outbox[i] == if IsOversized(db.outbox[i], size)
                                         then db.outbox[i].(state := Discarded, failures := []) else db.outbox[i]
  {
    var b := db.outbox[i];
    assert b in db.outbox;
    OversizedIds(db.outbox, size, db.nextId);
  }

  function NewRows(db: Db, size: nat): seq<Batch>
    requires size > 0
  {
    var oversized := Oversized(db.outbox, size);
    if oversized == [] then [] else NewBatches(db.nextId, db.nextId + 1, Pieces(oversized, size))
  }

  /** After a split the table is the old rows, updated, followed by the new ones. */
  lemma SplitShape(db: Db, size: nat)
    requires size > 0
    ensures |Split(db, size).outbox| == |db.outbox| + |NewRows(db, size)|
    ensures Split(db, size).outbox[|db.outbox|..] == NewRows(db, size)
    ensures Split(db, size).nextId == if Oversized(db.outbox, size) == [] then db.nextId
                                      else db.nextId + 1 + |NewRows(db, size)|
  {
  }

  /** The new rows have consecutive sequence numbers under one fresh scan. */
  lemma NewRowsKeys(db: Db, size: nat, i: nat)
    requires size > 0 && i < |NewRows(db, size)|
    ensures NewRows(db, size)[i].key == BatchKey(db.nextId, i) && NewRows(db, size)[i].id == db.nextId + 1 + i
    ensures Split(db, size).nextId == db.nextId + 1 + |NewRows(db, size)|
  {
  }

  /** The new rows are pieces of the oversized entries, in their order. */
  lemma NewRowsConcatenate(db: Db, size: nat)
    requires size > 0
    ensures EntriesOf(NewRows(db, size)) == EntriesOf(Oversized(db.outbox, size))
  {
    PiecesConcatenate(Oversized(db.outbox, size), size, db.nextId, db.nextId + 1);
  }

  lemma NewRowsSize(db: Db, size: nat, i: nat)
    requires size > 0 && i < |NewRows(db, size)|
    ensures 1 <= |NewRows(db, size)[i].entries| <= size && NewRows(db, size)[i].state == Pending
  {
    PiecesSize(Oversized(db.outbox, size), size, i);
  }

  lemma SplitRow(db: Db, size: nat, i: nat)
    requires size > 0 && UniqueRows(db.outbox, db.nextId) && i < |Split(db, size).outbox|
    ensures i < |db.outbox| ==>
              var b := Split(db, size).outbox[i];
              b.id == db.outbox[i].id < db.nextId && b.key == db.outbox[i].key && b.key.scan < db.nextId
    ensures i >= |db.outbox| ==>
              var b := Split(db, size).outbox[i];
              && b.id == db.nextId + 1 + i - |db.outbox| < Split(db, size).nextId
              && b.key == BatchKey(db.nextId, i - |db.outbox|) && db.nextId < Split(db, size).nextId
    ensures !IsOversized(Split(db, size).outbox[i], size)
    ensures Split(db, size).nextId >= db.nextId
  {
    SplitShape(db, size);
    if i < |db.outbox| {
      SplitOldRow(db, size, i);
      assert db.outbox[i] in db.outbox;
    } else {
      NewRowsKeys(db, size, i - |db.outbox|);
      NewRowsSize(db, size, i - |db.outbox|);
      assert Split(db, size).outbox[i] == Split(db, size).outbox[|db.outbox|..][i - |db.outbox|];
    }
  }

  lemma SplitKeepsUnique(db: Db, size: nat)
    requires size > 0 && UniqueRows(db.outbox, db.nextId)
    ensures UniqueRows(Split(db, size).outbox, Split(db, size).nextId)
  {
    var after := Split(db, size);
    forall i, j | 0 <= i <= j < |after.outbox|
      ensures after.outbox[i].id < after.nextId && after.outbox[i].key.scan < after.nextId
      ensures i < j ==> after.outbox[i].id != after.outbox[j].id && after.outbox[i].key != after.outbox[j].key
    {
      SplitRow(db, size, i);
      SplitRow(db, size, j);
    }
    forall b | b in after.outbox ensures b.id < after.nextId && b.key.scan < after.nextId {
      var i :| 0 <= i < |after.outbox| && after.outbox[i] == b;
      assert i <= i;
    }
  }

  /** A second split of the same size finds nothing to do. */
  lemma SplitTwice(db: Db, size: nat)
    requires size > 0 && UniqueRows(db.outbox, db.nextId)
    ensures Split(Split(db, size), size) == Split(db, size)
  {
    var after := Split(db, size);
    forall b | b in after.outbox ensures !IsOversized(b, size) {
      var i :| 0 <= i < |after.outbox| && after.outbox[i] == b;
      SplitRow(db, size, i);
    }
    NoneOversized(after.outbox, size);
  }

  lemma {:induction false} NoneOversized(outbox: seq<Batch>, size: nat)
    requires forall b :: b in outbox ==> !IsOversized(b, size)
    ensures Oversized(outbox, size) == []
  {
    if outbox != [] {
      NoneOversized(outbox[..|outbox| - 1], size);
    }
  }

  /** The entries waiting for delivery are the same multiset before and after. */
  lemma SplitConservesPending(db: Db, size: nat)
    requires size > 0 && UniqueRows(db.outbox, db.nextId)
    ensures multiset(EntriesOf(PendingOf(Split(db, size).outbox))) == multiset(EntriesOf(PendingOf(db.outbox)))
    ensures Split(db, size).known == db.known && Split(db, size).bulks == db.bulks && Split(db, size).desc == db.desc
  {
    var oversized := Oversized(db.outbox, size);
    PendingPartition(db.outbox, size);
    if oversized == [] {
      NothingOversized(db.outbox, size);
    } else {
      var rows := NewBatches(db.nextId, db.nextId + 1, Pieces(oversized, size));
      PendingAfterSplit(db, size);
      PiecesConcatenate(oversized, size, db.nextId, db.nextId + 1);
      EntriesConcat(Small(db.outbox, size), rows);
    }
  }
}
